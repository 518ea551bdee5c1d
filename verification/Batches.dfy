/** Batches: one Merkle tree over the hashes of mixed records, with a proof per record id, and
    the two levels of inclusion from a captured record to the anchored root. */
module Batches {
  import opened Results
  import opened Encoding
  import opened Merkle
  import opened LeafTree
  import opened MerkleTrees

  datatype BatchRecordType = Audit | TrustEvent | Provenance

  datatype BatchRecord = BatchRecord(id: string, hash: string, recordType: BatchRecordType, layer: int)

  datatype BatchResult = BatchResult(batchId: string, merkleRoot: string, recordCount: nat,
                                     records: seq<BatchRecord>, inclusionProofs: map<string, seq<string>>)

  function Hashes(records: seq<BatchRecord>): (r: seq<string>)
    ensures |r| == |records|
    ensures forall i :: 0 <= i < |r| ==> r[i] == records[i].hash
  {
    seq(|records|, i requires 0 <= i < |records| => records[i].hash)
  }

  function Ids(records: seq<BatchRecord>): (r: seq<string>)
    ensures |r| == |records|
    ensures forall i :: 0 <= i < |r| ==> r[i] == records[i].id
  {
    seq(|records|, i requires 0 <= i < |records| => records[i].id)
  }

  function Proofs(sha: Sha256, leaves: seq<string>): (r: seq<seq<string>>)
    ensures |r| == |leaves|
    ensures forall i :: 0 <= i < |r| ==> r[i] == InclusionProof(sha, leaves, i)
  {
    seq(|leaves|, i requires 0 <= i < |leaves| => InclusionProof(sha, leaves, i))
  }

  /** The dictionary filled by assigning `values[i]` to `keys[i]` in order: a repeated key keeps its
      last value. */
  function Filled<V>(keys: seq<string>, values: seq<V>): map<string, V>
    requires |keys| == |values|
  {
    if keys == [] then map[]
    else Filled(keys[..|keys| - 1], values[..|keys| - 1])[keys[|keys| - 1] := values[|keys| - 1]]
  }

  /** No later key is the same as the one at `i`. */
  predicate LastOccurrence(keys: seq<string>, i: nat) {
    i < |keys| && forall j :: i < j < |keys| ==> keys[j] != keys[i]
  }

  lemma {:induction false} FilledAt<V>(keys: seq<string>, values: seq<V>, i: nat)
    requires |keys| == |values| && LastOccurrence(keys, i)
    ensures keys[i] in Filled(keys, values) && Filled(keys, values)[keys[i]] == values[i]
  {
    var n := |keys| - 1;
    if i < n {
      assert keys[..n][i] == keys[i];
      FilledAt(keys[..n], values[..n], i);
    }
  }

  predicate Distinct(keys: seq<string>) {
    forall i, j :: 0 <= i < j < |keys| ==> keys[i] != keys[j]
  }

  lemma {:induction false} FilledKeys<V>(keys: seq<string>, values: seq<V>)
    requires |keys| == |values|
    ensures forall key :: key in Filled(keys, values) <==> key in keys
    ensures |Filled(keys, values)| <= |keys|
    ensures |Filled(keys, values)| == |keys| <==> Distinct(keys)
  {
    if keys != [] {
      var n := |keys| - 1;
      var front, last := keys[..n], keys[n];
      var before := Filled(front, values[..n]);
      FilledKeys(front, values[..n]);
      assert keys == front + [last];
      assert Distinct(keys) <==> Distinct(front) && last !in front;
      assert Filled(keys, values).Keys == before.Keys + {last};
      if last in front {
        assert before.Keys + {last} == before.Keys;
      }
    }
  }

  function BatchOf(sha: Sha256, batchId: string, records: seq<BatchRecord>): BatchResult
    requires records != []
  {
    BatchResult(batchId, Root(sha, Hashes(records)), |records|, records,
                Filled(Ids(records), Proofs(sha, Hashes(records))))
  }

  method ProofsById(tree: MerkleTree, ghost hashes: seq<string>, records: seq<BatchRecord>)
    returns (proofs: map<string, seq<string>>)
    requires tree.Represents(hashes) && |hashes| == |records|
    ensures proofs == Filled(Ids(records), Proofs(tree.sha, hashes))
  {
    hide InclusionProof, Ids, Proofs, MerkleTree.Represents;
    ghost var ids, goal := Ids(records), Proofs(tree.sha, hashes);
    proofs := map[];
    for i := 0 to |records|
      invariant proofs == Filled(ids[..i], goal[..i])
    {
      var proof := tree.GetProof(i, hashes);
      assert proof.value == goal[i];
      assert ids[..i + 1][..i] == ids[..i] && goal[..i + 1][..i] == goal[..i];
      proofs := proofs[records[i].id := proof.value];
    }
    assert ids[..|records|] == ids && goal[..|records|] == goal;
  }

  class BatchExtension {
    const sha: Sha256
    var records: seq<BatchRecord>

    constructor (sha: Sha256)
      ensures records == [] && this.sha == sha
    {
      this.sha := sha;
      records := [];
    }

    method AddRecord(record: BatchRecord)
      modifies this`records
      ensures records == old(records) + [record]
    {
      records := records + [record];
    }

    /** The batch id is drawn by the caller. */
    method BuildBatch(batchId: string) returns (r: Result<BatchResult>)
      ensures r == if records == [] then Failure(ValueError) else Success(BatchOf(sha, batchId, records))
      ensures r.Success? ==> r.value.records == records && r.value.recordCount == |records| && r.value.batchId == batchId
    {
      if records == [] {
        return Failure(ValueError);
      }
      var hashes := Hashes(records);
      var tree := new MerkleTree(sha, hashes);
      var proofs := ProofsById(tree, hashes, records);
      var root := tree.GetRoot(hashes);
      r := Success(BatchResult(batchId, root, |records|, records, proofs));
    }
  }

  /** The batch holds, under the id of this record, a proof that verifies its hash against the root. */
  predicate RecordProven(sha: Sha256, b: BatchResult, record: BatchRecord) {
    && record.id in b.inclusionProofs
    && VerificationResult(sha, record.hash, b.inclusionProofs[record.id], b.merkleRoot) == Success(true)
  }

  /** The proof stored under an id verifies the last record added with that id. */
  lemma BatchProofVerifies(sha: Sha256, batchId: string, records: seq<BatchRecord>, i: nat)
    requires i < |records| && LastOccurrence(Ids(records), i)
    ensures RecordProven(sha, BatchOf(sha, batchId, records), records[i])
  {
    FilledAt(Ids(records), Proofs(sha, Hashes(records)), i);
    InclusionComplete(sha, Hashes(records), i);
  }

  /** A batch lists exactly the records added, in order. With distinct ids every one of them is proven and
      there is exactly one entry per record; with a repeated id there are fewer entries than records. */
  lemma BatchComplete(sha: Sha256, batchId: string, records: seq<BatchRecord>)
    requires records != []
    ensures var b := BatchOf(sha, batchId, records);
            && b.records == records && b.recordCount == |records| && b.batchId == batchId
            && (|b.inclusionProofs| == |records| <==> Distinct(Ids(records)))
            && (forall id :: id in b.inclusionProofs <==> id in Ids(records))
            && (Distinct(Ids(records)) ==> forall i :: 0 <= i < |records| ==> RecordProven(sha, b, records[i]))
  {
    FilledKeys(Ids(records), Proofs(sha, Hashes(records)));
    if Distinct(Ids(records)) {
      forall i | 0 <= i < |records|
        ensures RecordProven(sha, BatchOf(sha, batchId, records), records[i])
      {
        BatchProofVerifies(sha, batchId, records, i);
      }
    }
  }

  // ----- Two levels -----

  function EmptySessionInput(sessionId: string): Bytes {
    Utf8("empty-session:" + sessionId)
  }

  /** The hash of an ended session over the content hashes of its records. */
  function SessionHash(sha: Sha256, sessionId: string, contents: seq<string>): string {
    if contents == [] then Hex(sha(EmptySessionInput(sessionId))) else Root(sha, contents)
  }

  const EMPTY_SESSION: Bytes := [101, 109, 112, 116, 121, 45, 115, 101, 115, 115, 105, 111, 110, 58]

  predicate IsAscii(s: string) {
    forall i :: 0 <= i < |s| ==> s[i] as int < 0x80
  }

  function AsciiBytes(s: string): (r: Bytes)
    requires IsAscii(s)
    ensures |r| == |s| && forall i :: 0 <= i < |r| ==> r[i] as int == s[i] as int
  {
    seq(|s|, i requires 0 <= i < |s| => s[i] as int as byte)
  }

  lemma {:induction false} AsciiText(s: string)
    requires IsAscii(s)
    ensures Utf8(s) == AsciiBytes(s)
  {
    if s != "" {
      AsciiText(s[1..]);
    }
  }

  /** The hash of a session without records is that of the ASCII bytes of `empty-session:` and its id. */
  lemma EmptySessionHash(sha: Sha256, sessionId: string)
    ensures SessionHash(sha, sessionId, []) == Hex(sha(EMPTY_SESSION + Utf8(sessionId)))
  {
    hide Utf8, Hex, EncodeChar;
    var prefix := "empty-session:";
    Utf8Joins(prefix, sessionId);
    AsciiText(prefix);
    assert AsciiBytes(prefix) == EMPTY_SESSION;
  }

  /** The inputs hashed to obtain a session hash. */
  ghost function SessionInputs(sha: Sha256, sessionId: string, contents: seq<string>): set<Bytes> {
    if contents == [] then {EmptySessionInput(sessionId)} else TreeInputs(sha, CommitTree(contents))
  }

  /** Every captured record of a session whose hash is in a batch has a proof to the session hash,
      and the session hash has one to the batch root. */
  lemma TwoLevelComplete(sha: Sha256, batchId: string, records: seq<BatchRecord>, i: nat,
                         sessionId: string, contents: seq<string>, k: nat)
    requires i < |records| && LastOccurrence(Ids(records), i)
    requires k < |contents| && records[i].hash == SessionHash(sha, sessionId, contents)
    ensures VerificationResult(sha, contents[k], InclusionProof(sha, contents, k), records[i].hash) == Success(true)
    ensures RecordProven(sha, BatchOf(sha, batchId, records), records[i])
  {
    InclusionComplete(sha, contents, k);
    BatchProofVerifies(sha, batchId, records, i);
  }

  /** Nothing verifies against the hash of an empty session. */
  lemma NothingInEmptySession(sha: Sha256, sessionId: string, content: string, proof: seq<string>)
    requires VerificationResult(sha, content, proof, SessionHash(sha, sessionId, [])) == Success(true)
    ensures Collision(sha, ProofInputs(sha, content, proof), SessionInputs(sha, sessionId, []))
  {
    var x, y := LastInput(sha, content, proof).value, EmptySessionInput(sessionId);
    HexInjective(sha(x), sha(y));
    assert x[0] == LEAF_PREFIX || x[0] == NODE_PREFIX;
    var s := "empty-session:" + sessionId;
    assert s[0] == 'e' && y == EncodeChar('e') + Utf8(s[1..]);
  }

  /** What verifies against the hash of a session is one of its content hashes, up to a collision. */
  lemma SessionSound(sha: Sha256, sessionId: string, contents: seq<string>, content: string, proof: seq<string>)
    requires VerificationResult(sha, content, proof, SessionHash(sha, sessionId, contents)) == Success(true)
    ensures (content in contents && |proof| == Height(|contents|))
            || Collision(sha, ProofInputs(sha, content, proof), SessionInputs(sha, sessionId, contents))
  {
    if contents == [] {
      NothingInEmptySession(sha, sessionId, content, proof);
    } else {
      InclusionSound(sha, contents, content, proof);
    }
  }

  /** A verifying pair of proofs, from a content hash through some hash to a batch root, goes through
      the hash of a record of the batch; and if that is the hash of a session, the content hash is one
      of the session's, so in particular the session is not empty. Up to a collision on either level. */
  lemma TwoLevelSound(sha: Sha256, records: seq<BatchRecord>, content: string, inner: seq<string>,
                      middle: string, outer: seq<string>, sessionId: string, contents: seq<string>)
    requires records != []
    requires VerificationResult(sha, content, inner, middle) == Success(true)
    requires VerificationResult(sha, middle, outer, Root(sha, Hashes(records))) == Success(true)
    ensures (exists i :: 0 <= i < |records| && records[i].hash == middle)
            || Collision(sha, ProofInputs(sha, middle, outer), TreeInputs(sha, CommitTree(Hashes(records))))
    ensures middle == SessionHash(sha, sessionId, contents) ==>
              (content in contents && |inner| == Height(|contents|))
              || Collision(sha, ProofInputs(sha, content, inner), SessionInputs(sha, sessionId, contents))
  {
    InclusionSound(sha, Hashes(records), middle, outer);
    if middle in Hashes(records) {
      var i :| 0 <= i < |records| && Hashes(records)[i] == middle;
      assert records[i].hash == middle;
    }
    if middle == SessionHash(sha, sessionId, contents) {
      SessionSound(sha, sessionId, contents, content, inner);
    }
  }
}
