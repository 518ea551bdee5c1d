/** End to end: from the data an agent records in a session, through the session hash and the queued batch
    record, to the root of a batch; in every run of the session service. */
module Provenance {
  import opened Results
  import opened Merkle
  import opened LeafTree
  import opened Records
  import opened Artifacts
  import opened Batches
  import opened SessionRuns

  /** The final record list behind a queued batch record. */
  function LogOf(canon: Canonical, t: State, i: nat): seq<CaptureRecord>
    requires i < |t.queue| && t.queue[i].sessionId in t.finals
  {
    Stored(canon, t.finals[t.queue[i].sessionId].attempted)
  }

  lemma QueuedHash(sha: Sha256, canon: Canonical, steps: seq<Step>, t: State, i: nat)
    requires Run(sha, canon, INIT, steps, t) && i < |t.queue|
    ensures t.queue[i].sessionId in t.finals
    ensures t.queue[i].record.hash == SessionHash(sha, t.queue[i].sessionId, HashesOf(LogOf(canon, t, i)))
  {
    hide SessionHash, SummaryFits, EventFits, QueuedOnce, SentOnce;
    EveryRun(sha, canon, steps, t);
    assert EntryFits(sha, canon, t, t.queue[i]);
  }

  /** Once a queued batch record is in a built batch, every record of its session has a proof to the
      session hash, and the batch holds the proof from there to its root. */
  lemma CapturedIsProvable(sha: Sha256, canon: Canonical, steps: seq<Step>, t: State, i: nat, batchId: string,
                           batch: seq<BatchRecord>, j: nat, k: nat)
    requires Run(sha, canon, INIT, steps, t) && i < |t.queue|
    requires j < |batch| && batch[j] == t.queue[i].record && LastOccurrence(Ids(batch), j)
    ensures t.queue[i].sessionId in t.finals
    ensures k < |LogOf(canon, t, i)| ==>
              && VerificationResult(sha, LogOf(canon, t, i)[k].contentHash, InclusionProof(sha, HashesOf(LogOf(canon, t, i)), k),
                                    batch[j].hash) == Success(true)
              && RecordProven(sha, BatchOf(sha, batchId, batch), batch[j])
  {
    hide InclusionProof, RecordProven, BatchOf, SessionHash;
    QueuedHash(sha, canon, steps, t, i);
    if k < |LogOf(canon, t, i)| {
      TwoLevelComplete(sha, batchId, batch, j, t.queue[i].sessionId, HashesOf(LogOf(canon, t, i)), k);
    }
  }

  // ----- Only captured data is provable -----

  /** The recording methods hash what they store. */
  ghost predicate RecordsIntact(sha: Sha256, canon: Canonical, steps: seq<Step>) {
    forall i :: 0 <= i < |steps| && steps[i].Record? ==> Intact(sha, canon, steps[i].record)
  }

  ghost predicate LogIntact(sha: Sha256, canon: Canonical, log: seq<CaptureRecord>) {
    forall i :: 0 <= i < |log| ==> Intact(sha, canon, log[i])
  }

  ghost predicate LogsIntact(sha: Sha256, canon: Canonical, s: State) {
    && (forall id :: id in s.active ==> LogIntact(sha, canon, s.active[id].attempted))
    && (forall id :: id in s.finals ==> LogIntact(sha, canon, s.finals[id].attempted))
  }

  lemma StepKeepsIntact(sha: Sha256, canon: Canonical, s: State, step: Step)
    requires LogsIntact(sha, canon, s) && Enabled(s, step) && s.ending.Keys <= s.finals.Keys
    requires step.Record? ==> Intact(sha, canon, step.record)
    ensures LogsIntact(sha, canon, Apply(sha, canon, s, step))
  {
    hide Intact;
    if step.Record? && step.id in s.active {
      assert LogIntact(sha, canon, s.active[step.id].attempted);
      assert LogIntact(sha, canon, s.active[step.id].attempted + [step.record]);
    }
  }

  lemma {:induction false} LogsStayIntact(sha: Sha256, canon: Canonical, s: State, steps: seq<Step>, t: State)
    requires LogsIntact(sha, canon, s) && RecordsIntact(sha, canon, steps) && Run(sha, canon, s, steps, t)
    ensures LogsIntact(sha, canon, t)
    decreases |steps|
  {
    hide Intact;
    if steps != [] {
      StepKeepsIntact(sha, canon, s, steps[0]);
      LogsStayIntact(sha, canon, Apply(sha, canon, s, steps[0]), steps[1..], t);
    }
  }

  lemma {:induction false} StoredAccepted(sha: Sha256, canon: Canonical, attempted: seq<CaptureRecord>)
    requires LogIntact(sha, canon, attempted)
    ensures LogIntact(sha, canon, Stored(canon, attempted)) && AllAccepted(canon, Stored(canon, attempted))
  {
    hide Intact;
    if attempted != [] {
      StoredAccepted(sha, canon, attempted[..|attempted| - 1]);
    }
  }

  lemma SameContent(sha: Sha256, canon: Canonical, data: Data, log: seq<CaptureRecord>, k: nat)
    requires Injective(canon) && k < |log| && canon.accepts(data) && canon.accepts(log[k].data)
    requires ContentHash(sha, canon, data) == ContentHash(sha, canon, log[k].data)
    ensures data == log[k].data || Collision(sha, {ContentInput(canon, data)}, ContentInputs(canon, log))
  {
    SameContentHash(sha, canon, data, log[k].data);
    assert ContentInput(canon, log[k].data) in ContentInputs(canon, log);
  }

  ghost predicate Captured(canon: Canonical, t: State, i: nat, data: Data)
    requires i < |t.queue| && t.queue[i].sessionId in t.finals
  {
    exists k :: 0 <= k < |LogOf(canon, t, i)| && LogOf(canon, t, i)[k].data == data
  }

  /** Different data hashes like a record of the session, or the proof's hashing runs into the session tree's. */
  ghost predicate SessionCollision(sha: Sha256, canon: Canonical, t: State, i: nat, data: Data, proof: seq<string>)
    requires i < |t.queue| && t.queue[i].sessionId in t.finals
  {
    || Collision(sha, {ContentInput(canon, data)}, ContentInputs(canon, LogOf(canon, t, i)))
    || Collision(sha, ProofInputs(sha, ContentHash(sha, canon, data), proof),
                 SessionInputs(sha, t.queue[i].sessionId, HashesOf(LogOf(canon, t, i))))
  }

  /** If data hashes to something that a proof carries to the hash of a queued session, the session
      recorded exactly that data, or one of two computations ran into a collision of SHA-256. */
  lemma ProvenIsCaptured(sha: Sha256, canon: Canonical, steps: seq<Step>, t: State, i: nat, data: Data, proof: seq<string>)
    requires Injective(canon) && canon.accepts(data) && RecordsIntact(sha, canon, steps)
    requires Run(sha, canon, INIT, steps, t) && i < |t.queue|
    requires VerificationResult(sha, ContentHash(sha, canon, data), proof, t.queue[i].record.hash) == Success(true)
    ensures t.queue[i].sessionId in t.finals
    ensures Captured(canon, t, i, data) || SessionCollision(sha, canon, t, i, data, proof)
  {
    hide ContentHash, VerificationResult, SessionHash, Collision, ProofInputs, SessionInputs, Apply, Stored, ContentInputs;
    QueuedHash(sha, canon, steps, t, i);
    LogsStayIntact(sha, canon, INIT, steps, t);
    var log, id, content := LogOf(canon, t, i), t.queue[i].sessionId, ContentHash(sha, canon, data);
    assert LogIntact(sha, canon, t.finals[id].attempted);
    StoredAccepted(sha, canon, t.finals[id].attempted);
    SessionSound(sha, id, HashesOf(log), content, proof);
    if content in HashesOf(log) {
      var k :| 0 <= k < |log| && HashesOf(log)[k] == content;
      assert Intact(sha, canon, log[k]);
      SameContent(sha, canon, data, log, k);
    }
  }

  /** The batch holds records that sessions queued. */
  ghost predicate FromQueue(t: State, batch: seq<BatchRecord>) {
    forall j :: 0 <= j < |batch| ==> exists i :: 0 <= i < |t.queue| && t.queue[i].record == batch[j]
  }

  ghost predicate AnyCaptured(canon: Canonical, t: State, data: Data) {
    exists i :: 0 <= i < |t.queue| && t.queue[i].sessionId in t.finals && Captured(canon, t, i, data)
  }

  ghost predicate AnySessionCollision(sha: Sha256, canon: Canonical, t: State, data: Data, proof: seq<string>) {
    exists i :: 0 <= i < |t.queue| && t.queue[i].sessionId in t.finals && SessionCollision(sha, canon, t, i, data, proof)
  }

  /** In every run: data that a pair of proofs carries to the root of a batch of queued records was recorded in
      one of the queued sessions, or the batch or one of the sessions ran into a collision of SHA-256. */
  lemma AnchoredIsCaptured(sha: Sha256, canon: Canonical, steps: seq<Step>, t: State, batch: seq<BatchRecord>, data: Data,
                           inner: seq<string>, middle: string, outer: seq<string>)
    requires Injective(canon) && canon.accepts(data) && RecordsIntact(sha, canon, steps)
    requires Run(sha, canon, INIT, steps, t) && batch != [] && FromQueue(t, batch)
    requires VerificationResult(sha, ContentHash(sha, canon, data), inner, middle) == Success(true)
    requires VerificationResult(sha, middle, outer, Root(sha, Batches.Hashes(batch))) == Success(true)
    ensures || AnyCaptured(canon, t, data)
            || AnySessionCollision(sha, canon, t, data, inner)
            || Collision(sha, ProofInputs(sha, middle, outer), TreeInputs(sha, CommitTree(Batches.Hashes(batch))))
  {
    hide VerificationResult, Captured, SessionCollision, Collision, Root, ProofInputs, TreeInputs, CommitTree, ContentHash,
         SessionHash, SessionInputs, Run, RecordsIntact, Injective;
    TwoLevelSound(sha, batch, ContentHash(sha, canon, data), inner, middle, outer, "", []);
    if exists j :: 0 <= j < |batch| && batch[j].hash == middle {
      var j :| 0 <= j < |batch| && batch[j].hash == middle;
      var i :| 0 <= i < |t.queue| && t.queue[i].record == batch[j];
      ProvenIsCaptured(sha, canon, steps, t, i, data, inner);
    }
  }
}
