# Verified model of the agent provenance and behaviour layers

A Dafny model of what the repository promises about agents' records: what a Merkle root commits to, what an
anomaly score can be, that no record is lost on the way to the chain, that the reasoning capture store agrees with
its own log, and how agents move through their lifecycle. Check it with `dafny verify dfyconfig.toml`.

| files | models |
|---|---|
| `Encoding`, `Merkle`, `LeafTree`, `Padding`, `MerkleTrees`, `Batches` | the Merkle tree, inclusion proofs, the documented padding, batches, two levels of inclusion |
| `RealFacts`, `Baselines`, `Scoring`, `Consumer` | baselines, z-scores, anomaly scores, the stream consumer |
| `AnchorQueue`, `Scheduler` | the anchor queue as a protocol, the scheduler's code, the provider failover |
| `Tallies`, `Records`, `Capture`, `Artifacts`, `Calls` | the capture store, the integrity check, the forensic artifacts, and all of them over the calls made |
| `Session`, `SessionServices`, `SessionRuns`, `Provenance` | ending a session, the session service, its interleaved runs, data to batch root |
| `Lifecycle`, `Kya` | the lifecycle machine and the agent service |

Code that updates fields or loops is a class or a method, proved against a function of its inputs or its old state;
the theorems are about those functions and about every run of them.

## What is a parameter

- SHA-256 (FIPS 180-4) is any function `sha` from byte strings to 32 bytes. No injectivity is assumed: a security
  statement ends in "or a collision", `Collision(sha, A, B)`, which says that an input of the finite set `A` and a
  different one of `B` have the same digest. `A` and `B` are the inputs that the two named computations hash, so the
  alternative is a pair of inputs anyone can write down, not the mere existence of collisions.
- The square root is any function with `IsSqrt`. Statistics are over the reals.
- Canonical JSON is any `canon`: the text of the dictionaries it accepts, and an exception on the others, such as one
  whose keys do not sort. Where a result needs it to be injective on what it accepts it says so (`Injective`).
- Ids, clocks and whether Redis, a provider or storage succeeds are arguments. A failing command is part of the model
  (`Fault`, `Environment`, `published`, `succeeds`), not an assumption that it does not happen.

## Where the code differs from what is written about it

- `docs/build-plan.md:25` pads the leaves on the right with the last leaf. `src/shared/crypto/merkle.py:52` pairs the
  last node of each odd layer with itself. `Padding.PaddingAgrees` says for every leaf list when the roots agree:
  exactly when the last `Tail` leaves, those below the lowest node that the code fills up, are equal, up to a
  collision. That always holds for 2^h and for 2^h - 1 leaves; six leaves need their last two equal. The model
  follows the code.
- A root does not fix the leaf list. `LeafTree.RootBinding` says exactly what it fixes: the tree up to exchanging
  siblings. Repeating the last of an odd number of at least three leaves, or exchanging sibling leaves, keeps the root.
- `src/layer1/behavioral/scoring.py:61` maps a root mean square of 4 to the score 1. The consumer scores a session
  against the baseline that already includes it, so every squared z-score is at most 19/2, the clip at 4 never acts
  and scores stay below 1 (`Consumer.CachedScores`, `Scoring.TightZScoreOfHistory`).
- `src/layer1/kya/router.py:29` lists attest, establish and reactivate. The service offers none of them, so it makes
  no agent established and reactivates no suspended one (`Kya.ReachableStatuses`).
- `src/layer3/sdk/capture.py:91` says that tampering with record data invalidates its hash, and that is proved. The
  record's type and timestamp are not part of what is hashed.
- `src/layer3/sdk/capture.py:511-512` names one error of `to_5w_artifacts`. There is another: a tool record whose
  inputs name a source and give a list or a dictionary as its sensitivity makes the count at lines 648-649 raise
  TypeError, so the session's artifacts are not stored. `Artifacts.To5WArtifacts` succeeds on a finalised capture
  exactly when no access has such a sensitivity, `Artifacts.ToolCountable` gives the condition on a tool's inputs,
  and `Artifacts.ListSensitivityRaises` is such an input.
- Serialisation is the last thing a recording method does (`src/layer3/sdk/capture.py:637-642`), so data that does not
  serialise raises after the side lists and totals were stepped. `Records.AgreementExactly` says when they still agree
  with the record list: exactly when that never happened to anything but a plain step.
- The scheduler gives up the records it drained when it has no credentials or when an entry does not parse;
  `AnchorQueue.StepLoses` says exactly which steps lose records.

## Model

| member | source | states |
|---|---|---|
| Encoding.Utf8Injective | src/shared/crypto/merkle.py:18 | different leaf strings are hashed as different bytes |
| Encoding.EncodeCharReads | src/shared/crypto/merkle.py:18 | the bytes of a character are those of UTF-8: lead byte by range, payloads spelling the code point in base 64 |
| Encoding.Hex | src/shared/crypto/merkle.py:24 | decoding the hexadecimal form of a byte string gives the byte string back |
| Encoding.HexDigits | src/shared/crypto/merkle.py:18 | every byte is two lower-case digits, the high one first |
| Encoding.FromHexReads | src/shared/crypto/merkle.py:24 | what is decoded is the hexadecimal form of the result, but for white space and case |
| Encoding.FromHexAccepts | src/shared/crypto/merkle.py:24 | digits of either case are decoded |
| Encoding.StringLessTotal | src/shared/crypto/merkle.py:23 | sorting two different strings puts one order on them, whichever comes first |
| Encoding.StringLessIs | src/shared/crypto/merkle.py:23 | a string sorts first when it ends first or has the smaller character at the first difference |
| Encoding.HexOrder | src/shared/crypto/merkle.py:23 | sorting hexadecimal forms sorts the bytes |
| Merkle.HashNodeOfDigests | src/shared/crypto/merkle.py:21-24 | on two digests in hexadecimal the string-level hash never raises and is the digest-level one |
| Merkle.PairInputSorted | src/shared/crypto/merkle.py:21-24 | the bytes hashed for two digests are a 1 and the digests, the one that is smaller as a byte string first |
| Merkle.NodeInputSorted | src/shared/crypto/merkle.py:21-24 | for strings the smaller one is decoded first, and hashing raises exactly when one does not decode |
| Merkle.PairInputCommutes | src/shared/crypto/merkle.py:21-24 | a pair hashes the same in either order |
| Merkle.PairInputBinds | src/shared/crypto/merkle.py:21-24 | the bytes hashed for a pair determine the pair up to order |
| Merkle.NodeInputBinds | src/shared/crypto/merkle.py:21-24 | a proof element that hashes like a pair of digests does so together with one of the two, whatever the element |
| Merkle.ProofSound | src/shared/crypto/merkle.py:91-105 | a proof accepted against any tree's digest is for a leaf of that tree at the depth of the proof's length, or a collision |
| Merkle.SameUpToSwapsSameDigest | src/shared/crypto/merkle.py:21-24 | exchanging children anywhere in a tree keeps its digest |
| Merkle.SameDigestSameUpToSwaps | src/shared/crypto/merkle.py:16-24 | trees with the same digest differ only by exchanged children, or a collision |
| Merkle.SameUpToSwapsSameLeaves | src/shared/crypto/merkle.py:21-24 | such trees have the same leaves at the same depths |
| LeafTree.HeightIsLeast | src/shared/crypto/merkle.py:48-55 | the number of layers above `n` leaves is the least `h` with `2^h >= n` |
| LeafTree.RootOfOne | src/shared/crypto/merkle.py:16-18 | the root of one leaf is the hash of a 0 and its bytes |
| LeafTree.RootOfTwo | src/shared/crypto/merkle.py:16-24 | the root of two leaves is the hash of a 1 and their hashes, the smaller one first |
| LeafTree.CommitTreeOccurs | src/shared/crypto/merkle.py:45-60 | the leaves of the committed tree are exactly the members of the list, all at the tree's height |
| LeafTree.PairUpSameTree | src/shared/crypto/merkle.py:49-54 | pairing up a layer, its odd last node with itself, leaves the recursively defined tree unchanged |
| LeafTree.LayerSameTree | src/shared/crypto/merkle.py:45-55 | every layer stands for the tree of the leaves, and the top layer is that one tree |
| LeafTree.LayerSize | src/shared/crypto/merkle.py:48-55 | layer `k` over `n` leaves has `n / 2^k` nodes, rounded up |
| LeafTree.PairDigest | src/shared/crypto/merkle.py:80-86 | hashing a node with the sibling chosen for the proof gives the node above both |
| LeafTree.ProofClimbs | src/shared/crypto/merkle.py:77-88 | after `k` proof elements a verifier holds the digest of the leaf's ancestor in layer `k` |
| LeafTree.InclusionComplete | src/shared/crypto/merkle.py:62-105 | for every leaf count and index the proof has the height of the tree and verifies |
| LeafTree.InclusionSound | src/shared/crypto/merkle.py:91-105 | an accepted proof of any elements is for a member of the list and as long as the tree is high, or a collision |
| LeafTree.VerifierIsExact | src/shared/crypto/merkle.py:91-105 | a verifier raises exactly on an element that is not hexadecimal and accepts a leaf and a proof against one root only |
| LeafTree.RootBinding | src/shared/crypto/merkle.py:45-60 | equal roots if, and up to a collision only if, the trees differ only by exchanged siblings |
| LeafTree.RootBindsLeaves | src/shared/crypto/merkle.py:45-60 | equal roots mean equal heights and the same set of leaves, or a collision |
| LeafTree.SiblingSwapKeepsRoot | src/shared/crypto/merkle.py:23 | exchanging two sibling leaves keeps the root |
| LeafTree.RepeatedLastLeafKeepsRoot | src/shared/crypto/merkle.py:52 | repeating the last of an odd number of at least three leaves keeps the root |
| LeafTree.RepeatedOnlyLeafChangesRoot | src/shared/crypto/merkle.py:48-52 | one leaf and two copies of it have different roots, or a collision |
| Padding.PaddedTree | src/shared/crypto/merkle.py:48-55 | the tree over leaves filled up with the last one is the code's tree up to swaps exactly when the tail is equal |
| Padding.PaddingAgrees | src/shared/crypto/merkle.py:52 | for every leaf list, filling it up with its last leaf keeps the root if, and up to a collision only if, the leaves below the lowest filled-up node are equal |
| Padding.NearlyFullAgrees | src/shared/crypto/merkle.py:52 | it always does on a power of two leaves or one less |
| Padding.SixLeaves | src/shared/crypto/merkle.py:52 | on six leaves it does exactly when the last two are equal, up to a collision |
| MerkleTrees.MerkleTree.constructor | src/shared/crypto/merkle.py:37-43 | the object holds exactly the layers of the tree over the leaves |
| MerkleTrees.MerkleTree.Create | src/shared/crypto/merkle.py:37-39 | an empty list raises, any other gives its tree |
| MerkleTrees.MerkleTree.Build | src/shared/crypto/merkle.py:45-55 | the loop over layers stops at the height of the tree with every layer right |
| MerkleTrees.NextLayer | src/shared/crypto/merkle.py:49-53 | one pass computes the layer of paired-up nodes |
| MerkleTrees.MerkleTree.GetRoot | src/shared/crypto/merkle.py:57-60 | the root is the digest of the recursively defined tree, whose hashes RootOfOne, RootOfTwo and PairInputSorted spell out |
| MerkleTrees.MerkleTree.GetProof | src/shared/crypto/merkle.py:62-88 | an index in range gives the inclusion proof that InclusionComplete verifies, any other raises |
| MerkleTrees.SiblingIn | src/shared/crypto/merkle.py:80-85 | the sibling index arithmetic picks the other member of the pair, or the node itself at an odd end |
| MerkleTrees.VerifyProof | src/shared/crypto/merkle.py:91-105 | the loop answers what the climb from the leaf says, and raises on an element that is not hexadecimal |
| Batches.FilledAt | src/layer3/pipeline/batch_extension.py:61-63 | the dictionary holds for each id the proof of the last record with that id |
| Batches.FilledKeys | src/layer3/pipeline/batch_extension.py:61-63 | its keys are the ids, as many as there are records exactly when the ids are distinct |
| Batches.BatchExtension.AddRecord | src/layer3/pipeline/batch_extension.py:36-42 | appends the record |
| Batches.BatchExtension.BuildBatch | src/layer3/pipeline/batch_extension.py:44-71 | the batch lists the records added, in order, with their number; an error when there are none |
| Batches.ProofsById | src/layer3/pipeline/batch_extension.py:60-63 | the loop fills the dictionary of inclusion proofs by id |
| Batches.BatchProofVerifies | src/layer3/pipeline/batch_extension.py:56-71 | the proof under an id verifies the hash of the last record added with that id |
| Batches.BatchComplete | src/layer3/pipeline/batch_extension.py:53-71 | the batch lists the input in order; with distinct ids every record added is proven, one entry per record; with a repeated id entries are missing |
| Batches.TwoLevelComplete | src/layer3/sdk/session.py:147-153 | every record of a non-empty session whose hash is in a batch has a proof to the session hash, and that one to the root |
| Batches.NothingInEmptySession | src/layer3/sdk/session.py:152-153 | no proof verifies against the hash of an empty session, or a collision |
| Batches.EmptySessionHash | src/layer3/sdk/session.py:152-153 | the hash of a session without records is that of the ASCII text empty-session: and its id |
| Batches.SessionSound | src/layer3/sdk/session.py:147-153 | what verifies against a session hash is a content hash of that session, or a collision |
| Batches.TwoLevelSound | src/layer3/sdk/session.py:147-153 | a verifying pair of proofs goes through a batch record and names a record of the session, up to collisions |
| Baselines.UpdateBaseline | src/layer1/behavioral/baselines.py:37-71 | all four metrics take one step and the session counts, or a metric that does not convert raises |
| Baselines.MetricsRead | src/layer1/behavioral/metrics.py:14-17 | a missing metric counts as 0, a list of tool invocations as its length, and a session folds exactly when nothing else is given |
| Baselines.HistoryIsWeightedMoments | src/layer1/behavioral/baselines.py:52-69 | after any history, mean and variance are the weighted mean and the weighted second moment minus its square |
| Baselines.WeightsSumToOne | src/layer1/behavioral/baselines.py:61-64 | those weights sum to one |
| Baselines.HistoryRange | src/layer1/behavioral/baselines.py:52-69 | over values in `[lo, hi]`: mean in `[lo, hi]`, variance between 0 and `(hi - mean)(mean - lo)` |
| Baselines.HistoryQuarterWidth | src/layer1/behavioral/baselines.py:52-69 | and at most a quarter of the squared width |
| Baselines.ZeroVarianceIsConstant | src/layer1/behavioral/baselines.py:56-64 | the variance is 0 exactly when all values so far are equal |
| Baselines.HistoryRescaled | src/layer1/behavioral/baselines.py:61-64 | scaling by `c` and shifting a history does that to the mean and multiplies the variance by `c` squared |
| Scoring.Clip | src/layer1/behavioral/scoring.py:38 | a z-score changes exactly outside [-4, 4], and then to the bound on its own side |
| Scoring.ScoredIs | src/layer1/behavioral/scoring.py:32 | a metric is scored from its second value on with a deviation of at least 1e-10 |
| Scoring.ZScoreIs | src/layer1/behavioral/scoring.py:32-38 | the z-score by squares: deviation over standard deviation with its sign, cut off at 4, 0 when not scored |
| Scoring.ComputeZScores | src/layer1/behavioral/scoring.py:18-40 | the z-scores in metric order, or an error exactly when a metric that is scored does not convert |
| Scoring.DeviationIdentity | src/layer1/behavioral/baselines.py:61-64 | 19/2 of the new variance is the squared deviation from the new mean plus a share of the old variance |
| Scoring.TightZScore | src/layer1/behavioral/consumer.py:66-76 | a session scored after its own update: squared z-score at most 19/2, no clipping, met exactly when the old variance is 0 |
| Scoring.TightZScoreOfHistory | src/layer1/behavioral/consumer.py:66-76 | the bound is met exactly by the first departure from a constant history |
| Scoring.UnseenSessionUnbounded | src/layer1/behavioral/scoring.py:36-38 | against a baseline without the session every z-score occurs: the bound comes from the order of the two calls |
| Scoring.ScoreOfFour | src/layer1/behavioral/scoring.py:58-62 | for any four z-scores the score is a quarter of their root mean square, capped at 1 |
| Scoring.ScoreBound | src/layer1/behavioral/scoring.py:58-62 | within the bound the cap does not act and the score stays below 1 |
| Scoring.UnitIndependence | src/layer1/behavioral/scoring.py:30-38 | changing a metric's unit keeps its z-score exactly when it keeps the metric on its side of the deviation floor, or the value is the mean |
| Consumer.Worker.Publish | src/layer3/feedback/emitter.py:64 | a new event changes nothing that was handled before |
| Consumer.Worker.ProcessSessionEvents | src/layer1/behavioral/consumer.py:31-100 | one call handles the next messages, at most 50, as message-by-message handling would, and counts the completed ones |
| Consumer.Worker.Handle | src/layer1/behavioral/consumer.py:53-98 | what one message leaves in Redis for each command that may fail; over runs StoreIsFold, CachedScores and AckedIsCompleted say what that is |
| Consumer.StoreIsFold | src/layer1/behavioral/consumer.py:60-67 | in every run an agent's baseline is the fold of its own incorporated sessions in order, each once, whatever comes between |
| Consumer.AckedIsCompleted | src/layer1/behavioral/consumer.py:88-98 | the acknowledged messages are exactly the completed ones |
| Consumer.FoldedIsHistory | src/layer1/behavioral/consumer.py:60-67 | every metric of such a baseline is the history of its values, and every count is the number of sessions |
| Consumer.FoldedScoreInRange | src/layer1/behavioral/consumer.py:69-76 | the score after any non-empty list of sessions is neutral for a young agent and otherwise within the bound |
| Consumer.SessionScore | src/layer1/behavioral/consumer.py:69-86 | the score of an agent's last session: 0.5 before the fifth, then a quarter of the root mean square of the four z-scores of that session; with the number of sessions |
| Consumer.FoldedScoreTight | src/layer1/behavioral/consumer.py:69-76 | the score meets the bound exactly when all four metrics are scored and each departs from a constant history at once |
| Consumer.CachedScores | src/layer1/behavioral/consumer.py:69-86 | in every run the cached score is that of the agent's latest message whose score was written, within the bound, and there is none exactly when there is no such message |
| AnchorQueue.InFlightUpdate | src/layer3/pipeline/scheduler.py:46-94 | one scheduler's change of phase changes the entries in flight by what it takes and hands over |
| AnchorQueue.StepAccounts | src/layer3/pipeline/scheduler.py:26-94 | every step of any scheduler keeps enqueued = pending + in flight + submitted + lost |
| AnchorQueue.StepLoses | src/layer3/pipeline/scheduler.py:57-78 | a step loses entries exactly when it crashes a holder or builds what cannot be submitted |
| AnchorQueue.Conservation | src/layer3/pipeline/scheduler.py:26-94 | the equation holds in every interleaving of any number of enqueuers and schedulers |
| AnchorQueue.NothingLost | src/layer3/pipeline/scheduler.py:80-94 | configured, with well-formed records and no crash, every record is pending, in flight or submitted, the same number of times |
| AnchorQueue.SubmittedOnce | src/layer3/pipeline/scheduler.py:46-94 | a record enqueued once is never in two submitted batches nor in one and still pending |
| AnchorQueue.SubmittedProven | src/layer3/pipeline/scheduler.py:57-86 | in every run, if no two enqueued records share an id, every submitted record is proven against its batch's root |
| AnchorQueue.RequeueRun | src/layer3/pipeline/scheduler.py:92-93 | requeueing one by one puts the whole batch back in order |
| AnchorQueue.EnqueueRun | src/layer3/pipeline/scheduler.py:26-33 | records enqueued one after the other stand in the list in that order |
| AnchorQueue.FirstRound | src/layer3/pipeline/scheduler.py:36-96 | a first round that succeeds submits exactly the records enqueued, as one batch and in order |
| AnchorQueue.RoundRun | src/layer3/pipeline/scheduler.py:36-96 | an undisturbed round submits all, loses all, or on failure leaves the list as it was, order included |
| Scheduler.SubmitAnchor | src/layer3/pipeline/anchor_submitter.py:44-88 | through the primary URL if it is set and accepts, else through the fallback likewise, else one kind of error; nothing without credentials |
| Scheduler.AnchorScheduler.EnqueueBatchRecord | src/layer3/pipeline/scheduler.py:26-33 | appends the record |
| Scheduler.AnchorScheduler.BuildAndSubmitBatch | src/layer3/pipeline/scheduler.py:36-96 | the list is left as it was exactly when all records parse, credentials are set and neither provider accepts, and empty otherwise; the result by cases |
| Tallies.Tally | src/layer3/sdk/capture.py:521-523 | a counting loop holds exactly the keys that occur, with their numbers |
| Tallies.TallyTotal | src/layer3/sdk/capture.py:521-523 | the numbers add up to the number of things counted |
| Records.ShadowIsProjection | src/layer3/sdk/capture.py:93-112 | stepping the eleven side lists and four totals attempt by attempt gives the filters, projections and sums of the attempts |
| Records.OfTypeJoins | src/layer3/sdk/capture.py:93-106 | the list of a type over a log is that of its parts, one after the other |
| Records.AccessesJoin | src/layer3/sdk/capture.py:107 | so are the accesses |
| Records.CostJoins | src/layer3/sdk/capture.py:109 | and the cost adds up |
| Records.ProjectionsOfOne | src/layer3/sdk/capture.py:93-109 | and those of one record are read off it |
| Records.InvocationsJoin | src/layer3/sdk/capture.py:294-295 | failures and totals of lists are those of their parts |
| Records.DroppedLength | src/layer3/sdk/capture.py:637-642 | the records of a type and the attempts of that type that were not stored make up its side list |
| Records.AgreementExactly | src/layer3/sdk/capture.py:637-642 | side lists and totals are those of the record list exactly when every attempt other than plain steps was stored |
| Records.StoredIsIntact | src/layer3/sdk/capture.py:637-642 | every record the store holds serialises and its hash is the SHA-256 of the UTF-8 bytes of its canonical text |
| Records.DeadEndsNumbered | src/layer3/sdk/capture.py:340-354 | the dead ends attempted are numbered 1, 2, 3, ... in order |
| Records.OneMoreRecord | src/layer3/sdk/capture.py:637-642 | one more intact attempt keeps the log good, steps the shadow once, and is stored if it serialises |
| Capture.ProvenanceCapture.Agreement | src/layer3/sdk/capture.py:82-112 | in every state reached through the methods every hash is right, and lists and totals are what the attempts determine, so what the record list determines exactly when nothing tracked was dropped |
| Capture.Clamp01 | src/layer3/sdk/capture.py:187-188 | a confidence is stored as the nearest number between 0 and 1 |
| Capture.ObservationAccess | src/layer3/sdk/capture.py:210-225 | an observation is a data access exactly when it names a source |
| Capture.ToolFacts | src/layer3/sdk/capture.py:281-307 | a tool record is a failure exactly when its outcome is not success, and an access exactly when its inputs name a source, internal unless they say otherwise |
| Capture.LlmCallFacts | src/layer3/sdk/capture.py:434-450 | an LLM record carries the cost, total tokens and latency that the totals add up |
| Capture.ProvenanceCapture.Append | src/layer3/sdk/capture.py:637-642 | adds the hashed record at the end, or raises on data that does not serialise and adds none |
| Capture.ProvenanceCapture.RecordStep | src/layer3/sdk/capture.py:159-163 | one more hashed record, or an error and the same record list when finalised or when the data does not serialise |
| Capture.ProvenanceCapture.RecordThought | src/layer3/sdk/capture.py:165-190 | the same, with the confidence clamped to [0, 1] when given |
| Capture.ProvenanceCapture.RecordObservation | src/layer3/sdk/capture.py:192-226 | the same, with the access list stepped |
| Capture.ProvenanceCapture.RecordDecision | src/layer3/sdk/capture.py:228-255 | the same for a decision |
| Capture.ProvenanceCapture.CountToolInvocation | src/layer3/sdk/capture.py:291-307 | steps the invocation list, the failures, the accesses and the cost and nothing else |
| Capture.ProvenanceCapture.RecordToolInvocation | src/layer3/sdk/capture.py:257-309 | the same, with failures, cost and accesses stepped and the outputs dropped on failure |
| Capture.ProvenanceCapture.RecordError | src/layer3/sdk/capture.py:311-338 | the same for an error |
| Capture.ProvenanceCapture.RecordDeadEnd | src/layer3/sdk/capture.py:340-354 | the same, numbered by the running count |
| Capture.ProvenanceCapture.RecordGuardrailCheck | src/layer3/sdk/capture.py:356-383 | the same for a guardrail check; Calls.DataHolds says what it holds and Calls.BlocksOfCalls what is counted of it |
| Capture.ProvenanceCapture.RecordDelegation | src/layer3/sdk/capture.py:385-411 | the same for a delegation |
| Capture.ProvenanceCapture.CountLlmCall | src/layer3/sdk/capture.py:447-450 | steps the call list, the cost, the tokens and the latency and nothing else |
| Capture.ProvenanceCapture.RecordLlmCall | src/layer3/sdk/capture.py:413-451 | the same, with cost, tokens and latency stepped |
| Capture.ProvenanceCapture.RecordGoal | src/layer3/sdk/capture.py:453-476 | the same for a goal |
| Artifacts.VerifyIntegrity | src/layer3/sdk/capture.py:484-498 | reports exactly the records whose stored hash is not that of their data, in order, or raises when some data does not serialise |
| Artifacts.MismatchesAre | src/layer3/sdk/capture.py:484-498 | the report lists exactly the positions whose stored hash is not that of the data, in increasing order and with their types |
| Artifacts.IntactHasNoMismatch | src/layer3/sdk/capture.py:484-498 | reports nothing on an intact log |
| Artifacts.TamperDetected | src/layer3/sdk/capture.py:484-498 | after replacing the data of any records by data that serialises it reports exactly the changed positions in order, or a collision |
| Artifacts.ComputeSensitivitySummary | src/layer3/sdk/capture.py:644-650 | counts the accesses by sensitivity, or raises exactly when one is a list or a dictionary |
| Artifacts.SameKey | src/layer3/sdk/capture.py:648-649 | two sensitivities are counted as one exactly when they are equal or numbers of the same value |
| Artifacts.To5WArtifacts | src/layer3/sdk/capture.py:502-633 | a finalised capture has artifacts exactly when every sensitivity can be counted, and they are determined by the attempts; asking before finalisation raises |
| Artifacts.AccessesHashable | src/layer3/sdk/capture.py:644-650 | the sensitivities can be counted exactly when those of each record can |
| Artifacts.ToolCountable | src/layer3/sdk/capture.py:297-307 | those of a tool invocation can unless its inputs name a source and give a list or a dictionary as sensitivity |
| Artifacts.ObservationCountable | src/layer3/sdk/capture.py:210-225 | those of an observation always can |
| Artifacts.ListSensitivityRaises | src/layer3/sdk/capture.py:648-649 | a tool invocation on a customer database with a list of sensitivities leaves the capture without artifacts |
| Artifacts.GuardrailBlockCount | src/layer3/sdk/capture.py:149-151 | counts the checks that blocked |
| Artifacts.TypeCountIsLength | src/layer3/sdk/capture.py:521-523 | the count of a type is the length of its list |
| Artifacts.SuccessesAndFailures | src/layer3/sdk/capture.py:591-601 | successes and failures together are the invocations |
| Artifacts.ArtifactsBalance | src/layer3/sdk/capture.py:517-633 | type counts sum to the record count and with the dropped attempts to each type's list, outcomes to invocations, non-successes to failures, sensitivities to accesses; transcript and hashes are the records in order, and the integrity hash is that of the hashes |
| Calls.DataHolds | src/layer3/sdk/capture.py:159-476 | each recording method stores every argument under its key: outputs on success only, a confidence clamped to [0, 1] |
| Calls.CallsOfType | src/layer3/sdk/capture.py:93-112 | over any calls, the records attempted of a type are the calls of that kind |
| Calls.BlocksOfCalls | src/layer3/sdk/capture.py:149-151 | the block count is the number of guardrail checks recorded as blocked |
| Calls.FailuresOfCalls | src/layer3/sdk/capture.py:294-295 | the failures are the tool calls whose outcome is not success |
| Calls.LlmTotalsOfCalls | src/layer3/sdk/capture.py:448-450 | tokens and latency add up over the LLM calls |
| Calls.CostOfCalls | src/layer3/sdk/capture.py:292 | the cost adds up over tool and LLM calls |
| Calls.NamesOfCalls | src/layer3/sdk/capture.py:125-127 | the tool names are those called, in order |
| Calls.OutputsOfCalls | src/layer3/sdk/capture.py:281-284 | the stored outputs are those of the successful calls |
| Calls.DecisionsOfCalls | src/layer3/sdk/capture.py:618 | the decision chain is the decisions made, in order |
| Calls.SourcesOfCalls | src/layer3/sdk/capture.py:133-135 | the sources are those that observations and tool inputs name, in order |
| Calls.RowsOfCalls | src/layer3/sdk/capture.py:97-106 | the list of a type holds what the calls of that kind recorded, in order |
| Calls.OutcomesOfCalls | src/layer3/sdk/capture.py:591-594 | the tool calls are counted by their outcome |
| Calls.LevelsOfCalls | src/layer3/sdk/capture.py:644-650 | the accesses are counted under the sensitivity given, or internal |
| Calls.ListsOfCalls | src/layer3/sdk/capture.py:596-625 | the lists and the two summaries of the artifacts of any calls are those of the calls |
| Calls.ManifestOfCalls | src/layer3/sdk/capture.py:517-633 | the artifacts of any calls count and add up the calls by their arguments |
| Calls.EventOfCalls | src/layer3/feedback/emitter.py:46-62 | the summary and the event of a session are those of its calls: names, distinct names, sources, counts, cost and hash |
| Calls.Perform | src/layer3/sdk/capture.py:159-476 | one call on the store is one attempt of what it records |
| Calls.PerformAll | src/layer3/sdk/capture.py:159-476 | a new capture after any calls holds exactly their attempts |
| Session.FeedbackIsFold | src/layer3/feedback/emitter.py:46-62 | what the baseline extracts from a session's event is the fold of its attempts for dead ends, tools, cost and duration, and of its record list when nothing tracked was dropped |
| Session.SessionManager.RecordDeadEnd | src/layer3/sdk/session.py:77-80 | the dead-end record with its number and hash until the session has ended, then an error and no change |
| Session.SessionManager.EndSession | src/layer3/sdk/session.py:117-237 | ends once: the summary with the id and the sent flag, the queued record and the emitted event are those of what was recorded, by which services are wired and succeed |
| Session.HashSession | src/layer3/sdk/session.py:146-153 | the Merkle root of the content hashes, or the hash reserved for an empty session |
| SessionServices.SessionService.StartSession | src/layer3/sdk/service.py:53-71 | adds an empty session and changes no other |
| SessionServices.SessionService.GetSession | src/layer3/sdk/service.py:73-82 | finds active sessions only |
| SessionServices.SessionService.RecordDeadEnd | src/layer3/sdk/service.py:141-144 | an active session gets the numbered and hashed dead-end record, no other object changes |
| SessionServices.SessionService.EndSession | src/layer3/sdk/service.py:84-105 | moves an active session to the completed ones with the summary of its own records; ended and unknown sessions raise different errors |
| SessionRuns.StepPartitions | src/layer3/sdk/service.py:53-105 | every step keeps started = active + ending + completed, disjoint, and every finalised log |
| SessionRuns.StepSummaries | src/layer3/sdk/session.py:155-165 | every step keeps every summary that of the final log |
| SessionRuns.StepOutputs | src/layer3/sdk/session.py:196-237 | every step keeps every queued hash that of a final log, under the id the summary gives, and every event that of the session's own summary and final log |
| SessionRuns.StepQueues | src/layer3/sdk/session.py:206-210 | every step keeps at most one batch record per session, none before its turn |
| SessionRuns.StepSends | src/layer3/sdk/session.py:221-235 | every step keeps one event exactly for the sessions whose summary says it was sent |
| SessionRuns.EveryRun | src/layer3/sdk/service.py:53-105 | all of this in every interleaved run from the start |
| SessionRuns.OutputsAreSuccesses | src/layer3/sdk/session.py:196-235 | a run queues and emits for a session exactly as often as a command for it succeeded |
| SessionRuns.EveryEventFolds | src/layer3/feedback/emitter.py:46-62 | in every run what the baseline extracts from any emitted event is the fold of its session's final log, with the summary's duration |
| SessionRuns.EndSessionRun | src/layer3/sdk/service.py:84-105 | an uninterrupted end of a session is the run begin, queue, emit, finish, with the summary, queue and stream that the class promises |
| SessionRuns.FinalIsFinal | src/layer3/sdk/session.py:135-141 | a finalised log never changes and its session is not ended again |
| SessionRuns.RunRecords | src/layer3/sdk/service.py:53-144 | in every run a session holds exactly the records made between its start and the beginning of its end, in order, for the agent that started it |
| SessionRuns.EndsOnce | src/layer3/sdk/service.py:96-101 | no run ends a session twice |
| Provenance.CapturedIsProvable | src/layer3/sdk/session.py:147-210 | in every run, once a session's queued record is in a batch, all its records are provable up to the batch root |
| Provenance.LogsStayIntact | src/layer3/sdk/capture.py:637-642 | as long as recording hashes what it stores, every log in every run holds intact records only |
| Provenance.ProvenIsCaptured | src/layer3/sdk/session.py:147-210 | in every run, data provable up to a queued session hash was recorded in that session, or one of two named collisions |
| Provenance.AnchoredIsCaptured | src/layer3/sdk/session.py:147-210 | in every run, data provable up to the root of a batch of queued records was recorded in one of their sessions, or one of three named collisions |
| Lifecycle.LadderIsClimbed | src/layer1/kya/state_machine.py:22-42 | a trace is at a rung exactly when it ends with a registration or reactivation and then every rung up to it |
| Lifecycle.EstablishedTraces | src/layer1/kya/state_machine.py:22-42 | established exactly after register or reactivate, then verify, attest, establish, last of all |
| Lifecycle.RevokedIsFinal | src/layer1/kya/state_machine.py:34-42 | a revocation is the last event of a trace and the only way to end revoked |
| Lifecycle.SendIs | src/layer1/kya/state_machine.py:22-42 | when each event is allowed and where it leads, and the error otherwise |
| Lifecycle.EveryStatusReached | src/layer1/kya/state_machine.py:22-42 | the whole ladder can be climbed, and climbed again after a suspension |
| Kya.KYAService.Register | src/layer1/kya/service.py:33-73 | a new registered row of tier 0 with its type, authorizer and metadata, no other row changed, and its event; the row stays when publishing fails |
| Kya.KYAService.Admit | src/layer1/kya/service.py:140-187 | an unknown agent or the machine's answer at the stored status |
| Kya.KYAService.Verify | src/layer1/kya/service.py:75-88 | succeeds exactly on a registered agent and stores the time; errors by cause |
| Kya.KYAService.Suspend | src/layer1/kya/service.py:90-111 | succeeds exactly on the ladder's statuses; errors by cause |
| Kya.KYAService.Revoke | src/layer1/kya/service.py:113-138 | every agent not yet revoked is, and nothing else changes; the event carries the reason and the revoker; errors by cause |
| Kya.HistoryIsTrace | src/layer1/kya/service.py:33-172 | what a run of the service does to one agent is a trace of the machine |
| Kya.StatusChangesBounded | src/layer1/kya/service.py:75-172 | a measure drops with every change: at most three after registration, however long the run |
| Kya.ThreeChangesHappen | src/layer1/kya/service.py:75-138 | three changes do happen |
| Kya.ReachableStatuses | src/layer1/kya/service.py:33-138 | from an empty table an agent is on a rung exactly when that is registered or verified and its history is the plain climb |
| Kya.TimeIsVerification | src/layer1/kya/service.py:161-163 | the stored verification time is that of the latest verification carried out |
| Kya.VerifiedKeepTimes | src/layer1/kya/service.py:161-163 | every verified agent has a verification time, in every run |
| Kya.RevokedForever | src/layer1/kya/service.py:113-138 | a revoked agent's row never changes again |
| Kya.StreamTellsHistory | src/layer1/kya/service.py:65-70 | when every event is published, the stream tells each registration and revocation once, in order |

## Left out

- Surrogate code points: `str` is modelled over Unicode scalar values, on which UTF-8 is total; the code raises on a lone surrogate.
- Floating point: rounding, `round(score, 4)`, infinities and the formatted factor strings; numbers are exact.
- Timestamps, except the verification time; elapsed time is an argument.
- JSON: the serialised text of records, baselines and events; `default=str`, which can make serialisation non-injective; lists of anything but strings inside recorded data; metric values other than numbers, lists of names and null. Whatever serialisation raises is one error.
- UUIDs: generated ids are arguments, fresh where the code relies on it.
- Redis: reading a stream payload that is not JSON at all fails the whole read; cache expiry; a failed requeue is a crash that loses the rest of the batch.
- Concurrency on one agent: two consumers, or two requests, that interleave inside their read-modify-write of the same row; consumer and lifecycle calls are atomic, one worker runs.
- Redelivery: a consumer group hands a message out once, so messages left unacknowledged stay so.
- Storage writes and `storage_path`: file I/O behind a caught exception.
- Signing, gas, ABI encoding, RPC calls and receipts: sending returns or raises, and returning means submitted, not confirmed on chain; nothing is claimed about uniqueness on chain.
- A crash during submission counts its batch as lost, though the transaction may have been sent.
- Python aliasing: dictionaries passed to the capture store are values, so a caller that mutates one after recording is not modelled; tampering is modelled as replacing a record's data.
- The text of `intent.md` and the unordered name lists in the artifacts.
- The session manager's and the service's other ten recording methods: they delegate exactly like `RecordDeadEnd`.
- AnchorQueue.Conservation: does not order records across schedulers, because requeueing interleaves with new records.
- Trust tiers, the circuit breaker, routers, authentication, settings and the anchor contract: finite tables and plumbing around the above.
