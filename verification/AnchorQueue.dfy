/** The anchor queue as a protocol: any number of enqueuers and schedulers share one Redis list, a
    scheduler drains it atomically, builds a batch, submits it, and on failure puts the records back
    one at a time while others go on. Steps interleave freely. */
module AnchorQueue {
  import opened Merkle
  import opened Batches

  /** An entry of the Redis list: a serialised record, or text that does not parse as one. */
  datatype Raw = WellFormed(record: BatchRecord) | Malformed(text: string)

  /** Where a scheduler is in its cycle, with the entries only it holds. */
  datatype Phase =
    | Idle
    | Drained(raws: seq<Raw>)
    | Submitting(batch: seq<Raw>)
    | Requeueing(rest: seq<Raw>)

  datatype State = State(
    pending: seq<Raw>,
    schedulers: seq<Phase>,
    submitted: seq<seq<Raw>>,
    lost: multiset<Raw>,
    enqueued: multiset<Raw>)

  datatype Step =
    | Enqueue(raw: Raw)
    | Drain(w: nat)
    | Build(w: nat)
    | SubmitReturns(w: nat)
    | SubmitRaises(w: nat)
    | RequeueOne(w: nat)
    | Crash(w: nat)

  predicate AllWellFormed(raws: seq<Raw>) {
    forall i :: 0 <= i < |raws| ==> raws[i].WellFormed?
  }

  function Held(phase: Phase): seq<Raw> {
    match phase
    case Idle => []
    case Drained(raws) => raws
    case Submitting(batch) => batch
    case Requeueing(rest) => rest
  }

  predicate Enabled(s: State, step: Step) {
    match step
    case Enqueue(_) => true
    case Drain(w) => w < |s.schedulers| && s.schedulers[w].Idle?
    case Build(w) => w < |s.schedulers| && s.schedulers[w].Drained?
    case SubmitReturns(w) => w < |s.schedulers| && s.schedulers[w].Submitting?
    case SubmitRaises(w) => w < |s.schedulers| && s.schedulers[w].Submitting?
    case RequeueOne(w) => w < |s.schedulers| && s.schedulers[w].Requeueing? && s.schedulers[w].rest != []
    case Crash(w) => w < |s.schedulers|
  }

  /** The batch is built and goes on to submission: every entry parses and credentials are set. */
  predicate Submittable(configured: bool, raws: seq<Raw>) {
    configured && AllWellFormed(raws)
  }

  function Apply(configured: bool, s: State, step: Step): State
    requires Enabled(s, step)
  {
    match step
    case Enqueue(raw) =>
      s.(pending := s.pending + [raw], enqueued := s.enqueued + multiset{raw})
    case Drain(w) =>
      s.(pending := [], schedulers := s.schedulers[w := if s.pending == [] then Idle else Drained(s.pending)])
    case Build(w) =>
      var raws := s.schedulers[w].raws;
      if Submittable(configured, raws) then s.(schedulers := s.schedulers[w := Submitting(raws)])
      else s.(schedulers := s.schedulers[w := Idle], lost := s.lost + multiset(raws))
    case SubmitReturns(w) =>
      s.(schedulers := s.schedulers[w := Idle], submitted := s.submitted + [s.schedulers[w].batch])
    case SubmitRaises(w) =>
      s.(schedulers := s.schedulers[w := Requeueing(s.schedulers[w].batch)])
    case RequeueOne(w) =>
      var rest := s.schedulers[w].rest;
      s.(pending := s.pending + [rest[0]],
         schedulers := s.schedulers[w := if |rest| == 1 then Idle else Requeueing(rest[1..])])
    case Crash(w) =>
      s.(schedulers := s.schedulers[w := Idle], lost := s.lost + multiset(Held(s.schedulers[w])))
  }

  function Init(n: nat): State {
    State([], seq(n, i => Idle), [], multiset{}, multiset{})
  }

  /** `steps` is a run from `s` to `t`. */
  predicate Run(configured: bool, s: State, steps: seq<Step>, t: State)
    decreases |steps|
  {
    if steps == [] then s == t
    else Enabled(s, steps[0]) && Run(configured, Apply(configured, s, steps[0]), steps[1..], t)
  }

  // ----- Conservation -----

  function InFlight(schedulers: seq<Phase>): multiset<Raw> {
    if schedulers == [] then multiset{}
    else multiset(Held(schedulers[0])) + InFlight(schedulers[1..])
  }

  function Entries(batches: seq<seq<Raw>>): multiset<Raw> {
    if batches == [] then multiset{}
    else Entries(batches[..|batches| - 1]) + multiset(batches[|batches| - 1])
  }

  /** The entries no scheduler holds. */
  function Settled(s: State): multiset<Raw> {
    multiset(s.pending) + Entries(s.submitted) + s.lost
  }

  /** Every enqueued entry is in exactly one place. */
  predicate Accounted(s: State) {
    s.enqueued == Settled(s) + InFlight(s.schedulers)
  }

  lemma AddCommon(h: multiset<Raw>, a: multiset<Raw>, b: multiset<Raw>, c: multiset<Raw>, d: multiset<Raw>)
    requires a + b == c + d
    ensures (h + a) + b == (h + c) + d
  {
    assert (h + a) + b == h + (a + b);
  }

  lemma {:induction false} InFlightUpdate(schedulers: seq<Phase>, w: nat, phase: Phase)
    requires w < |schedulers|
    ensures InFlight(schedulers[w := phase]) + multiset(Held(schedulers[w]))
         == InFlight(schedulers) + multiset(Held(phase))
  {
    var head, tail := schedulers[0], schedulers[1..];
    if w == 0 {
      assert schedulers[w := phase] == [phase] + tail;
    } else {
      assert schedulers[w := phase] == [head] + tail[w - 1 := phase];
      InFlightUpdate(tail, w - 1, phase);
      AddCommon(multiset(Held(head)), InFlight(tail[w - 1 := phase]), multiset(Held(schedulers[w])),
                InFlight(tail), multiset(Held(phase)));
    }
  }

  lemma {:induction false} InFlightIdle(n: nat)
    ensures InFlight(seq(n, i => Idle)) == multiset{}
  {
    if n > 0 {
      assert seq(n, i => Idle)[1..] == seq(n - 1, i => Idle);
      InFlightIdle(n - 1);
    }
  }

  lemma Balance(settled: multiset<Raw>, held: multiset<Raw>, flight: multiset<Raw>,
                settled': multiset<Raw>, held': multiset<Raw>, flight': multiset<Raw>)
    requires settled + held == settled' + held'
    requires flight' + held == flight + held'
    ensures settled + flight == settled' + flight'
  {
    forall x: Raw
      ensures (settled + flight)[x] == (settled' + flight')[x]
    {
      assert (settled + held)[x] == (settled' + held')[x];
      assert (flight' + held)[x] == (flight + held')[x];
    }
  }

  /** Scheduler `w` changes its phase and hands over what it no longer holds. */
  ghost predicate Moves(s: State, t: State, w: nat) {
    && w < |s.schedulers| && |t.schedulers| == |s.schedulers|
    && t.schedulers == s.schedulers[w := t.schedulers[w]]
    && t.enqueued == s.enqueued
    && Settled(s) + multiset(Held(s.schedulers[w])) == Settled(t) + multiset(Held(t.schedulers[w]))
  }

  lemma MoveAccounts(s: State, t: State, w: nat)
    requires Accounted(s) && Moves(s, t, w)
    ensures Accounted(t)
  {
    InFlightUpdate(s.schedulers, w, t.schedulers[w]);
    Balance(Settled(s), multiset(Held(s.schedulers[w])), InFlight(s.schedulers),
            Settled(t), multiset(Held(t.schedulers[w])), InFlight(t.schedulers));
  }

  lemma DrainMoves(configured: bool, s: State, w: nat)
    requires Enabled(s, Drain(w))
    ensures Moves(s, Apply(configured, s, Drain(w)), w)
  {
    var t := Apply(configured, s, Drain(w));
    assert Held(s.schedulers[w]) == [] && Held(t.schedulers[w]) == s.pending;
    assert multiset(t.pending) == multiset{};
  }

  lemma BuildMoves(configured: bool, s: State, w: nat)
    requires Enabled(s, Build(w))
    ensures Moves(s, Apply(configured, s, Build(w)), w)
  {
  }

  lemma SubmitMoves(configured: bool, s: State, w: nat)
    requires Enabled(s, SubmitReturns(w))
    ensures Moves(s, Apply(configured, s, SubmitReturns(w)), w)
    ensures Moves(s, Apply(configured, s, SubmitRaises(w)), w)
  {
    var t := Apply(configured, s, SubmitReturns(w));
    assert t.submitted[..|t.submitted| - 1] == s.submitted;
    assert Entries(t.submitted) == Entries(s.submitted) + multiset(s.schedulers[w].batch);
  }

  lemma RequeueMoves(configured: bool, s: State, w: nat)
    requires Enabled(s, RequeueOne(w))
    ensures Moves(s, Apply(configured, s, RequeueOne(w)), w)
  {
    var t := Apply(configured, s, RequeueOne(w));
    var rest := s.schedulers[w].rest;
    assert Held(t.schedulers[w]) == rest[1..];
    assert multiset(rest) == multiset{rest[0]} + multiset(rest[1..]) by {
      assert rest == [rest[0]] + rest[1..];
    }
    assert multiset(t.pending) == multiset(s.pending) + multiset{rest[0]};
  }

  lemma CrashMoves(configured: bool, s: State, w: nat)
    requires Enabled(s, Crash(w))
    ensures Moves(s, Apply(configured, s, Crash(w)), w)
  {
  }

  lemma StepMoves(configured: bool, s: State, step: Step)
    requires Enabled(s, step) && !step.Enqueue?
    ensures Moves(s, Apply(configured, s, step), step.w)
  {
    match step
    case Drain(w) => DrainMoves(configured, s, w);
    case Build(w) => BuildMoves(configured, s, w);
    case SubmitReturns(w) => SubmitMoves(configured, s, w);
    case SubmitRaises(w) => SubmitMoves(configured, s, w);
    case RequeueOne(w) => RequeueMoves(configured, s, w);
    case Crash(w) => CrashMoves(configured, s, w);
  }

  lemma StepAccounts(configured: bool, s: State, step: Step)
    requires Accounted(s) && Enabled(s, step)
    ensures Accounted(Apply(configured, s, step))
  {
    if step.Enqueue? {
      assert multiset(s.pending + [step.raw]) == multiset(s.pending) + multiset{step.raw};
    } else {
      StepMoves(configured, s, step);
      MoveAccounts(s, Apply(configured, s, step), step.w);
    }
  }

  lemma {:induction false} RunAccounts(configured: bool, s: State, steps: seq<Step>, t: State)
    requires Accounted(s) && Run(configured, s, steps, t)
    ensures Accounted(t)
    decreases |steps|
  {
    if steps != [] {
      StepAccounts(configured, s, steps[0]);
      RunAccounts(configured, Apply(configured, s, steps[0]), steps[1..], t);
    }
  }

  // ----- Loss -----

  /** The schedulers hold only what was enqueued, so only well-formed entries if nothing else was. */
  predicate CleanState(s: State) {
    && AllWellFormed(s.pending)
    && forall w :: 0 <= w < |s.schedulers| ==> AllWellFormed(Held(s.schedulers[w]))
  }

  predicate CleanStep(step: Step) {
    match step
    case Enqueue(raw) => raw.WellFormed?
    case Crash(_) => false
    case _ => true
  }

  lemma LossIsVisible(lost: multiset<Raw>, raws: seq<Raw>)
    ensures lost + multiset(raws) == lost <==> raws == []
  {
    if raws != [] {
      assert raws[0] in multiset(raws);
      assert (lost + multiset(raws))[raws[0]] > lost[raws[0]];
    }
  }

  /** A step loses entries exactly when it crashes a scheduler that holds some or builds a batch that
      cannot be submitted: one with an entry that does not parse, or any batch without credentials. */
  lemma StepLoses(configured: bool, s: State, step: Step)
    requires Enabled(s, step)
    ensures Apply(configured, s, step).lost == s.lost
            <==> match step
                 case Build(w) =>
                   (configured && forall raw :: raw in s.schedulers[w].raws ==> raw.WellFormed?) || s.schedulers[w].raws == []
                 case Crash(w) => Held(s.schedulers[w]) == []
                 case _ => true
  {
    match step
    case Build(w) =>
      LossIsVisible(s.lost, s.schedulers[w].raws);
    case Crash(w) =>
      LossIsVisible(s.lost, Held(s.schedulers[w]));
    case _ =>
  }

  lemma CleanStepKeeps(s: State, step: Step)
    requires CleanState(s) && CleanStep(step) && Enabled(s, step)
    ensures CleanState(Apply(true, s, step)) && Apply(true, s, step).lost == s.lost
  {
  }

  lemma {:induction false} CleanRunLosesNothing(s: State, steps: seq<Step>, t: State)
    requires CleanState(s) && (forall i :: 0 <= i < |steps| ==> CleanStep(steps[i])) && Run(true, s, steps, t)
    ensures t.lost == s.lost
    decreases |steps|
  {
    if steps != [] {
      CleanStepKeeps(s, steps[0]);
      CleanRunLosesNothing(Apply(true, s, steps[0]), steps[1..], t);
    }
  }

  /** Conservation, with every way a record can be lost counted: in every interleaving of any number of
      enqueuers and `n` schedulers, enqueued = pending + in flight + submitted + lost. */
  lemma Conservation(configured: bool, n: nat, steps: seq<Step>, t: State)
    requires Run(configured, Init(n), steps, t)
    ensures Accounted(t)
  {
    InFlightIdle(n);
    RunAccounts(configured, Init(n), steps, t);
  }

  /** With credentials, well-formed records and no crash nothing is lost, so every enqueued record is
      pending, in flight or in a submitted batch, the same number of times. */
  lemma NothingLost(n: nat, steps: seq<Step>, t: State)
    requires Run(true, Init(n), steps, t)
    requires forall i :: 0 <= i < |steps| ==> CleanStep(steps[i])
    ensures t.enqueued == multiset(t.pending) + Entries(t.submitted) + InFlight(t.schedulers)
  {
    Conservation(true, n, steps, t);
    CleanRunLosesNothing(Init(n), steps, t);
  }

  lemma {:induction false} EntryOfBatch(batches: seq<seq<Raw>>, i: nat, raw: Raw)
    requires i < |batches|
    ensures Entries(batches)[raw] >= multiset(batches[i])[raw]
  {
    var n := |batches| - 1;
    if i < n {
      EntryOfBatch(batches[..n], i, raw);
    }
  }

  lemma {:induction false} EntryOfTwoBatches(batches: seq<seq<Raw>>, i: nat, j: nat, raw: Raw)
    requires i < j < |batches|
    ensures Entries(batches)[raw] >= multiset(batches[i])[raw] + multiset(batches[j])[raw]
  {
    var n := |batches| - 1;
    if j < n {
      EntryOfTwoBatches(batches[..n], i, j, raw);
    } else {
      EntryOfBatch(batches[..n], i, raw);
    }
  }

  /** A record enqueued once is never in two submitted batches, nor in one and still pending. This needs
      neither credentials nor the absence of crashes. */
  lemma SubmittedOnce(configured: bool, n: nat, steps: seq<Step>, t: State, raw: Raw)
    requires Run(configured, Init(n), steps, t) && t.enqueued[raw] <= 1
    ensures forall i, j :: 0 <= i < j < |t.submitted| ==> !(raw in t.submitted[i] && raw in t.submitted[j])
    ensures forall i :: 0 <= i < |t.submitted| ==> !(raw in t.submitted[i] && raw in t.pending)
  {
    Conservation(configured, n, steps, t);
    forall i, j | 0 <= i < j < |t.submitted|
      ensures !(raw in t.submitted[i] && raw in t.submitted[j])
    {
      EntryOfTwoBatches(t.submitted, i, j, raw);
    }
    forall i | 0 <= i < |t.submitted|
      ensures !(raw in t.submitted[i] && raw in t.pending)
    {
      EntryOfBatch(t.submitted, i, raw);
    }
  }

  // ----- Submitted records are proven -----

  function Records(raws: seq<Raw>): (records: seq<BatchRecord>)
    requires AllWellFormed(raws)
    ensures |records| == |raws|
    ensures forall i :: 0 <= i < |records| ==> records[i] == raws[i].record
  {
    seq(|raws|, i requires 0 <= i < |raws| => raws[i].record)
  }

  /** No two of these entries have the same record id. */
  predicate UniqueIds(raws: multiset<Raw>) {
    && (forall raw :: raw in raws && raw.WellFormed? ==> raws[raw] == 1)
    && forall a, b :: a in raws && b in raws && a.WellFormed? && b.WellFormed? && a.record.id == b.record.id ==> a == b
  }

  lemma SameEntryTwice(raws: seq<Raw>, i: nat, j: nat)
    requires i < j < |raws| && raws[i] == raws[j]
    ensures multiset(raws)[raws[i]] >= 2
  {
    assert raws == raws[..j] + raws[j..];
    assert raws[..j][i] in multiset(raws[..j]) && raws[j..][0] in multiset(raws[j..]);
  }

  lemma DistinctInBatch(raws: seq<Raw>, all: multiset<Raw>)
    requires AllWellFormed(raws) && UniqueIds(all) && multiset(raws) <= all
    ensures Distinct(Ids(Records(raws)))
  {
    var ids := Ids(Records(raws));
    forall i, j | 0 <= i < j < |ids|
      ensures ids[i] != ids[j]
    {
      assert raws[i] in multiset(raws) && raws[j] in multiset(raws);
      if ids[i] == ids[j] {
        SameEntryTwice(raws, i, j);
        assert false;
      }
    }
  }

  /** Only batches in which every entry parses are submitted. */
  predicate BuiltWellFormed(s: State) {
    && (forall i :: 0 <= i < |s.submitted| ==> AllWellFormed(s.submitted[i]))
    && forall w :: 0 <= w < |s.schedulers| && s.schedulers[w].Submitting? ==> AllWellFormed(s.schedulers[w].batch)
  }

  lemma {:induction false} BuiltStayWellFormed(configured: bool, s: State, steps: seq<Step>, t: State)
    requires BuiltWellFormed(s) && Run(configured, s, steps, t)
    ensures BuiltWellFormed(t)
    decreases |steps|
  {
    if steps != [] {
      BuiltStayWellFormed(configured, Apply(configured, s, steps[0]), steps[1..], t);
    }
  }

  /** In every run, if no two enqueued records share an id, every record of every submitted batch is proven
      against the root of its batch. */
  lemma SubmittedProven(sha: Sha256, configured: bool, n: nat, steps: seq<Step>, t: State, batchId: string, i: nat, k: nat)
    requires Run(configured, Init(n), steps, t) && UniqueIds(t.enqueued)
    requires i < |t.submitted| && k < |t.submitted[i]|
    ensures AllWellFormed(t.submitted[i]) && Distinct(Ids(Records(t.submitted[i])))
    ensures RecordProven(sha, BatchOf(sha, batchId, Records(t.submitted[i])), t.submitted[i][k].record)
  {
    hide UniqueIds, BatchOf, RecordProven, Run, Distinct;
    BuiltStayWellFormed(configured, Init(n), steps, t);
    Conservation(configured, n, steps, t);
    forall raw: Raw
      ensures multiset(t.submitted[i])[raw] <= t.enqueued[raw]
    {
      EntryOfBatch(t.submitted, i, raw);
    }
    DistinctInBatch(t.submitted[i], t.enqueued);
    BatchComplete(sha, batchId, Records(t.submitted[i]));
  }

  // ----- One round without interference -----

  /** The steps of a whole round of scheduler `w` that drains `raws`. */
  function RoundSteps(configured: bool, w: nat, raws: seq<Raw>, returned: bool): seq<Step> {
    if raws == [] then [Drain(w)]
    else if !Submittable(configured, raws) then [Drain(w), Build(w)]
    else if returned then [Drain(w), Build(w), SubmitReturns(w)]
    else [Drain(w), Build(w), SubmitRaises(w)] + seq(|raws|, i => RequeueOne(w))
  }

  /** The state such a round ends in. */
  function RoundResult(configured: bool, s: State, returned: bool): State {
    if !Submittable(configured, s.pending) then s.(pending := [], lost := s.lost + multiset(s.pending))
    else if returned && s.pending != [] then s.(pending := [], submitted := s.submitted + [s.pending])
    else s
  }

  lemma {:induction false} RequeueRun(configured: bool, s: State, w: nat, rest: seq<Raw>)
    requires w < |s.schedulers| && rest != []
    requires s.schedulers[w] == Requeueing(rest)
    ensures Run(configured, s, seq(|rest|, i => RequeueOne(w)),
                s.(pending := s.pending + rest, schedulers := s.schedulers[w := Idle]))
    decreases |rest|
  {
    var steps := seq(|rest|, i => RequeueOne(w));
    var next := Apply(configured, s, RequeueOne(w));
    var goal := s.(pending := s.pending + rest, schedulers := s.schedulers[w := Idle]);
    assert steps[0] == RequeueOne(w);
    assert steps[1..] == seq(|rest| - 1, i => RequeueOne(w));
    if |rest| == 1 {
      assert rest == [rest[0]];
      assert next == goal;
    } else {
      RequeueRun(configured, next, w, rest[1..]);
      assert next.pending + rest[1..] == s.pending + rest;
      assert next.schedulers[w := Idle] == s.schedulers[w := Idle];
    }
  }

  /** The steps of a round that drains something, one after the other. */
  lemma RoundUnfolds(configured: bool, s: State, w: nat, rest: seq<Step>, t: State)
    requires w < |s.schedulers| && s.schedulers[w].Idle? && s.pending != []
    requires var drained := s.(pending := [], schedulers := s.schedulers[w := Drained(s.pending)]);
             Run(configured, Apply(configured, drained, Build(w)), rest, t)
    ensures Run(configured, s, [Drain(w), Build(w)] + rest, t)
  {
    var steps := [Drain(w), Build(w)] + rest;
    var drained := Apply(configured, s, Drain(w));
    assert steps[1..] == [Build(w)] + rest && steps[1..][1..] == rest;
    assert Run(configured, drained, steps[1..], t);
  }

  lemma FailedSubmissionRun(configured: bool, s: State, w: nat, raws: seq<Raw>)
    requires w < |s.schedulers| && s.schedulers[w] == Submitting(raws) && raws != []
    ensures Run(configured, s, [SubmitRaises(w)] + seq(|raws|, i => RequeueOne(w)),
                s.(pending := s.pending + raws, schedulers := s.schedulers[w := Idle]))
  {
    var back := seq(|raws|, i => RequeueOne(w));
    var failed := Apply(configured, s, SubmitRaises(w));
    assert ([SubmitRaises(w)] + back)[1..] == back;
    RequeueRun(configured, failed, w, raws);
    assert failed.schedulers[w := Idle] == s.schedulers[w := Idle];
  }

  /** An undisturbed round empties the list into a submitted batch, or loses all of it, or, when
      submission fails, leaves the list exactly as it was, order included. */
  lemma RoundRun(configured: bool, s: State, w: nat, returned: bool)
    requires w < |s.schedulers| && s.schedulers[w].Idle?
    ensures Run(configured, s, RoundSteps(configured, w, s.pending, returned), RoundResult(configured, s, returned))
  {
    var raws, steps := s.pending, RoundSteps(configured, w, s.pending, returned);
    assert s.schedulers[w := Idle] == s.schedulers;
    if raws == [] {
      assert Apply(configured, s, Drain(w)) == s;
      assert s.lost + multiset(raws) == s.lost;
    } else {
      var drained := s.(pending := [], schedulers := s.schedulers[w := Drained(raws)]);
      var built := Apply(configured, drained, Build(w));
      var rest := steps[2..];
      assert steps == [Drain(w), Build(w)] + rest;
      if Submittable(configured, raws) && !returned {
        FailedSubmissionRun(configured, built, w, raws);
        assert built.pending + raws == raws;
        assert rest == [SubmitRaises(w)] + seq(|raws|, i => RequeueOne(w));
      } else if returned && Submittable(configured, raws) {
        assert rest == [SubmitReturns(w)] && rest[1..] == [];
      }
      assert built.schedulers[w := Idle] == s.schedulers;
      RoundUnfolds(configured, s, w, rest, RoundResult(configured, s, returned));
    }
  }

  // ----- Order -----

  lemma OneStep(configured: bool, s: State, step: Step, rest: seq<Step>, t: State)
    requires Enabled(s, step) && Run(configured, Apply(configured, s, step), rest, t)
    ensures Run(configured, s, [step] + rest, t)
  {
    assert ([step] + rest)[1..] == rest;
  }

  function Enqueues(raws: seq<Raw>): seq<Step> {
    if raws == [] then [] else [Enqueue(raws[0])] + Enqueues(raws[1..])
  }

  function Filled(s: State, raws: seq<Raw>): State {
    s.(pending := s.pending + raws, enqueued := s.enqueued + multiset(raws))
  }

  lemma FilledFirst(configured: bool, s: State, raws: seq<Raw>)
    requires raws != []
    ensures Filled(Apply(configured, s, Enqueue(raws[0])), raws[1..]) == Filled(s, raws)
  {
    assert raws == [raws[0]] + raws[1..];
    assert multiset(raws) == multiset{raws[0]} + multiset(raws[1..]);
  }

  /** Records enqueued one after the other stand in the list in that order. */
  lemma {:induction false} EnqueueRun(configured: bool, s: State, raws: seq<Raw>, rest: seq<Step>, t: State)
    requires Run(configured, Filled(s, raws), rest, t)
    ensures Run(configured, s, Enqueues(raws) + rest, t)
    decreases |raws|
  {
    hide Apply, Run;
    if raws == [] {
      assert Enqueues(raws) + rest == rest && Filled(s, raws) == s;
    } else {
      FilledFirst(configured, s, raws);
      EnqueueRun(configured, Apply(configured, s, Enqueue(raws[0])), raws[1..], rest, t);
      OneStep(configured, s, Enqueue(raws[0]), Enqueues(raws[1..]) + rest, t);
      assert Enqueues(raws) + rest == [Enqueue(raws[0])] + (Enqueues(raws[1..]) + rest);
    }
  }

  /** A first round that succeeds submits exactly the records enqueued, as one batch and in order. */
  lemma FirstRound(raws: seq<Raw>)
    requires raws != [] && AllWellFormed(raws)
    ensures Run(true, Init(1), Enqueues(raws) + [Drain(0), Build(0), SubmitReturns(0)],
                State([], [Idle], [raws], multiset{}, multiset(raws)))
  {
    var filled := State(raws, [Idle], [], multiset{}, multiset(raws));
    var end := State([], [Idle], [raws], multiset{}, multiset(raws));
    var drained := Apply(true, filled, Drain(0));
    assert drained.schedulers == [Drained(raws)];
    var built := Apply(true, drained, Build(0));
    assert built.schedulers == [Submitting(raws)];
    assert Apply(true, built, SubmitReturns(0)) == end;
    assert Run(true, end, [], end);
    OneStep(true, built, SubmitReturns(0), [], end);
    OneStep(true, drained, Build(0), [SubmitReturns(0)] + [], end);
    OneStep(true, filled, Drain(0), [Build(0)] + ([SubmitReturns(0)] + []), end);
    assert [Drain(0)] + ([Build(0)] + ([SubmitReturns(0)] + [])) == [Drain(0), Build(0), SubmitReturns(0)];
    assert Init(1) == State([], [Idle], [], multiset{}, multiset{});
    assert Filled(Init(1), raws) == filled;
    EnqueueRun(true, Init(1), raws, [Drain(0), Build(0), SubmitReturns(0)], end);
  }
}
