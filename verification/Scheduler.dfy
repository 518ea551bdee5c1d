/** The anchor scheduler's code: one round over the Redis list, and the failover between two RPC
    providers. Sending a transaction is a parameter: it returns a transaction hash or raises. */
module Scheduler {
  import opened Results
  import opened Merkle
  import opened Batches
  import opened AnchorQueue

  datatype Settings = Settings(deployerKey: string, contractAddress: string, primaryUrl: string, fallbackUrl: string)

  predicate Configured(settings: Settings) {
    settings.deployerKey != "" && settings.contractAddress != ""
  }

  /** What the `i`-th attempt does, sending through the provider at this URL. */
  type Sender = (nat, string) -> Result<string>

  predicate Accepts(send: Sender, i: nat, url: string) {
    url != "" && send(i, url).Success?
  }

  predicate Accepted(settings: Settings, send: Sender) {
    Accepts(send, 0, settings.primaryUrl) || Accepts(send, 1, settings.fallbackUrl)
  }

  /** Through the primary provider if it has a URL and accepts, else through the fallback likewise, else one
      kind of error. */
  method SubmitAnchor(settings: Settings, send: Sender) returns (r: Result<string>)
    ensures r == if settings.deployerKey == "" || settings.contractAddress == "" then Failure(AnchorSubmissionError)
                 else if settings.primaryUrl != "" && send(0, settings.primaryUrl).Success? then send(0, settings.primaryUrl)
                 else if settings.fallbackUrl != "" && send(1, settings.fallbackUrl).Success? then send(1, settings.fallbackUrl)
                 else Failure(AnchorSubmissionError)
  {
    if settings.deployerKey == "" || settings.contractAddress == "" {
      return Failure(AnchorSubmissionError);
    }
    var rpcUrls := [settings.primaryUrl, settings.fallbackUrl];
    var primaryFailed := false;
    for i := 0 to |rpcUrls|
      invariant forall j :: 0 <= j < i ==> !Accepts(send, j, rpcUrls[j])
      invariant primaryFailed ==> i > 0
    {
      if rpcUrls[i] == "" {
        continue;
      }
      var sent := send(i, rpcUrls[i]);
      if sent.Success? {
        assert i == 1 ==> !Accepts(send, 0, rpcUrls[0]);
        return sent;
      }
      if primaryFailed {
        assert !Accepts(send, 0, rpcUrls[0]);
        return Failure(AnchorSubmissionError);
      }
      primaryFailed := true;
    }
    assert !Accepts(send, 0, rpcUrls[0]) && !Accepts(send, 1, rpcUrls[1]);
    r := Failure(AnchorSubmissionError);
  }

  /** The list after an undisturbed round of the protocol. */
  function RoundPending(configured: bool, pending: seq<Raw>, accepted: bool): seq<Raw> {
    RoundResult(configured, Init(1).(pending := pending), accepted).pending
  }

  class AnchorScheduler {
    const sha: Sha256
    const settings: Settings
    var pending: seq<Raw>

    constructor (sha: Sha256, settings: Settings)
      ensures this.sha == sha && this.settings == settings && pending == []
    {
      this.sha := sha;
      this.settings := settings;
      pending := [];
    }

    method EnqueueBatchRecord(record: BatchRecord)
      modifies this`pending
      ensures pending == old(pending) + [WellFormed(record)]
    {
      pending := pending + [WellFormed(record)];
    }

    /** One round. Without interference the list afterwards is that of the protocol's round. An entry that
        does not parse raises after the list was drained, and missing credentials return the batch without
        submitting it: in both cases the drained records are gone. */
    method BuildAndSubmitBatch(batchId: string, send: Sender) returns (r: Result<Option<BatchResult>>)
      modifies this`pending
      ensures pending == RoundPending(Configured(settings), old(pending), Accepted(settings, send))
      ensures pending == if AllWellFormed(old(pending)) && settings.deployerKey != "" && settings.contractAddress != ""
                            && !(settings.primaryUrl != "" && send(0, settings.primaryUrl).Success?)
                            && !(settings.fallbackUrl != "" && send(1, settings.fallbackUrl).Success?)
                         then old(pending) else []
      ensures old(pending) == [] ==> r == Success(None)
      ensures !AllWellFormed(old(pending)) ==> r == Failure(ValueError)
      ensures old(pending) != [] && AllWellFormed(old(pending)) && (!Configured(settings) || Accepted(settings, send))
              ==> r == Success(Some(BatchOf(sha, batchId, Records(old(pending)))))
      ensures old(pending) != [] && AllWellFormed(old(pending)) && Configured(settings) && !Accepted(settings, send)
              ==> r == Failure(AnchorSubmissionError)
    {
      hide BatchOf;
      var raws := pending;
      pending := [];
      if raws == [] {
        return Success(None);
      }
      var batch := new BatchExtension(sha);
      for i := 0 to |raws|
        invariant pending == []
        invariant AllWellFormed(raws[..i]) && batch.records == Records(raws[..i])
      {
        if raws[i].Malformed? {
          return Failure(ValueError);
        }
        batch.AddRecord(raws[i].record);
      }
      assert raws[..|raws|] == raws;
      var built := batch.BuildBatch(batchId);
      if !Configured(settings) {
        return Success(Some(built.value));
      }
      var sent := SubmitAnchor(settings, send);
      if sent.Failure? {
        for i := 0 to |raws|
          invariant pending == raws[..i]
        {
          pending := pending + [raws[i]];
        }
        return Failure(AnchorSubmissionError);
      }
      r := Success(Some(built.value));
    }
  }
}
