/** The inference service of the NEAR deployment: batch and streaming
    inference jobs stored by id, and per-user usage counters. A panic aborts
    the call with no state change (a `Fail` here); the caller and the block
    timestamp are parameters. */
module NearInference {
  import opened Base

  /** NEAR account names, model ids and job ids: strings the contract only
      stores and compares, so the model keeps them abstract. */
  type AccountId(==, !new)
  type ModelId(==, !new)
  type JobId(==, !new)

  const MAX_BATCH_PROMPTS: nat := 100
  const MAX_CHUNK_SIZE: nat := 1000

  datatype BatchInferenceRequest = BatchInferenceRequest(
    batchId: JobId,
    modelId: ModelId,
    prompts: seq<string>,
    userId: AccountId,
    requireAttestation: bool,
    createdAt: nat)

  datatype StreamingConfig = StreamingConfig(
    streamId: JobId,
    modelId: ModelId,
    prompt: string,
    chunkSize: U32,
    userId: AccountId,
    createdAt: nat)

  datatype InferenceMetrics = InferenceMetrics(
    totalInferences: nat,
    successfulInferences: nat,
    failedInferences: nat,
    totalCost: nat,
    averageLatencyMs: nat)

  datatype Error = EmptyPrompts | TooManyPrompts | InvalidChunkSize

  // ---------------------------------------------------------------------------
  // Guards

  /** `create_batch_inference`: emptiness is checked before the size cap. */
  function BatchCheck(promptCount: nat): (r: Outcome<Error>)
    ensures r == Pass <==> 1 <= promptCount <= MAX_BATCH_PROMPTS
    ensures promptCount == 0 ==> r == Fail(EmptyPrompts)
    ensures promptCount > MAX_BATCH_PROMPTS ==> r == Fail(TooManyPrompts)
  {
    if promptCount == 0 then Fail(EmptyPrompts)
    else if promptCount > MAX_BATCH_PROMPTS then Fail(TooManyPrompts)
    else Pass
  }

  /** `create_streaming_inference`. */
  function StreamCheck(chunkSize: U32): (r: Outcome<Error>)
    ensures r == Pass <==> 1 <= chunkSize <= MAX_CHUNK_SIZE
    ensures r.Fail? ==> r.error == InvalidChunkSize
  {
    if chunkSize > 0 && chunkSize <= MAX_CHUNK_SIZE then Pass else Fail(InvalidChunkSize)
  }

  // ---------------------------------------------------------------------------
  // Usage counters

  /** The record a user without one starts from. */
  const NO_METRICS := InferenceMetrics(0, 0, 0, 0, 0)

  /** What `update_metrics` writes back: the user's record (or all zeros)
      with one more inference, counted as a success or as a failure. */
  function Bumped(m: Option<InferenceMetrics>, success: bool): (r: InferenceMetrics)
    ensures var old_ := if m.Some? then m.value else NO_METRICS;
      && r.totalInferences == old_.totalInferences + 1
      && r.successfulInferences == old_.successfulInferences + (if success then 1 else 0)
      && r.failedInferences == old_.failedInferences + (if success then 0 else 1)
      && r.totalCost == old_.totalCost
      && r.averageLatencyMs == old_.averageLatencyMs
  {
    var base := if m.Some? then m.value else NO_METRICS;
    if success then
      base.(totalInferences := base.totalInferences + 1, successfulInferences := base.successfulInferences + 1)
    else
      base.(totalInferences := base.totalInferences + 1, failedInferences := base.failedInferences + 1)
  }

  /** Successes and failures account for every inference counted. */
  predicate Balanced(m: InferenceMetrics) {
    m.successfulInferences + m.failedInferences == m.totalInferences
  }

  /** A record as `update_metrics` can produce it: balanced, with cost and
      latency never written. */
  predicate Wellformed(m: InferenceMetrics) {
    Balanced(m) && m.totalCost == 0 && m.averageLatencyMs == 0
  }

  /** A record with no failures, as every record is while the only caller
      of `update_metrics` reports success. */
  predicate OnlySuccesses(m: InferenceMetrics) {
    Wellformed(m) && m.failedInferences == 0
  }

  /** Bumping keeps a record well formed, and a fresh record starts from
      one inference. */
  lemma BumpKeepsBalance(m: Option<InferenceMetrics>, success: bool)
    requires m.Some? ==> Wellformed(m.value)
    ensures Wellformed(Bumped(m, success))
    ensures m.None? ==> Bumped(m, success).totalInferences == 1
  {
  }

  /** Counting a success on a record the contract can produce gives another
      such record. */
  lemma BumpSuccessKeepsOnlySuccesses(m: Option<InferenceMetrics>)
    requires m.Some? ==> OnlySuccesses(m.value)
    ensures OnlySuccesses(Bumped(m, true))
  {
  }

  // ---------------------------------------------------------------------------
  // The contract state

  /** Every stored job sits under its own id and passed its guard, and every
      usage record is well formed. */
  ghost predicate Stored(
    batches: map<JobId, BatchInferenceRequest>, streams: map<JobId, StreamingConfig>,
    userMetrics: map<AccountId, InferenceMetrics>)
  {
    && (forall id :: id in batches ==>
          batches[id].batchId == id && 1 <= |batches[id].prompts| <= MAX_BATCH_PROMPTS)
    && (forall id :: id in streams ==>
          streams[id].streamId == id && 1 <= streams[id].chunkSize <= MAX_CHUNK_SIZE)
    && (forall u :: u in userMetrics ==> Wellformed(userMetrics[u]))
  }

  /** Writing back a well-formed usage record keeps the tables as they
      were guarded. */
  lemma StoreMetricsKeepsStored(
    batches: map<JobId, BatchInferenceRequest>, streams: map<JobId, StreamingConfig>,
    userMetrics: map<AccountId, InferenceMetrics>, user: AccountId, m: InferenceMetrics)
    requires Stored(batches, streams, userMetrics)
    requires Wellformed(m)
    ensures Stored(batches, streams, userMetrics[user := m])
  {
  }

  class Service {
    var batches: map<JobId, BatchInferenceRequest>
    var streams: map<JobId, StreamingConfig>
    var userMetrics: map<AccountId, InferenceMetrics>
    var owner: AccountId
    var modelRegistry: AccountId

    ghost predicate Valid()
      reads this
    {
      Stored(batches, streams, userMetrics)
    }

    /** `new`: empty tables. */
    constructor (owner: AccountId, modelRegistry: AccountId)
      ensures Valid()
      ensures this.owner == owner && this.modelRegistry == modelRegistry
      ensures batches == map[] && streams == map[] && userMetrics == map[]
    {
      this.owner := owner;
      this.modelRegistry := modelRegistry;
      batches := map[];
      streams := map[];
      userMetrics := map[];
    }

    /** `create_batch_inference`: a batch of 1 to 100 prompts is stored
        under its id, replacing any batch there, and the caller's counters
        record one successful inference, whatever the number of prompts. */
    method CreateBatchInference(
      caller: AccountId, batchId: JobId, modelId: ModelId, prompts: seq<string>,
      requireAttestation: bool, now: nat)
      returns (r: Result<BatchInferenceRequest, Error>)
      requires Valid()
      modifies this
      ensures Valid()
      ensures r.Ok? <==> BatchCheck(|prompts|) == Pass
      ensures r.Err? ==> BatchCheck(|prompts|) == Fail(r.error)
      ensures r.Ok? ==>
        && r.value == BatchInferenceRequest(batchId, modelId, prompts, caller, requireAttestation, now)
        && batches == old(batches)[batchId := r.value]
        && userMetrics == old(userMetrics)[caller := Bumped(Find(old(userMetrics), caller), true)]
      ensures r.Err? ==> batches == old(batches) && userMetrics == old(userMetrics)
      ensures streams == old(streams) && owner == old(owner) && modelRegistry == old(modelRegistry)
    {
      var check := BatchCheck(|prompts|);
      if check.Fail? {
        return Err(check.error);
      }
      var batch := BatchInferenceRequest(batchId, modelId, prompts, caller, requireAttestation, now);
      batches := batches[batchId := batch];
      UpdateMetrics(caller, true);
      r := Ok(batch);
    }

    /** `create_streaming_inference`: a chunk size of 1 to 1000 is required;
        the configuration is stored under its id, replacing any there. The
        attestation flag is accepted and ignored. */
    method CreateStreamingInference(
      caller: AccountId, streamId: JobId, modelId: ModelId, prompt: string, chunkSize: U32,
      requireAttestation: bool, now: nat)
      returns (r: Outcome<Error>)
      requires Valid()
      modifies this
      ensures Valid()
      ensures r == StreamCheck(chunkSize)
      ensures r.Pass? ==>
        streams == old(streams)[streamId := StreamingConfig(streamId, modelId, prompt, chunkSize, caller, now)]
      ensures r.Fail? ==> streams == old(streams)
      ensures batches == old(batches) && userMetrics == old(userMetrics)
      ensures owner == old(owner) && modelRegistry == old(modelRegistry)
    {
      r := StreamCheck(chunkSize);
      if r.Fail? {
        return;
      }
      streams := streams[streamId := StreamingConfig(streamId, modelId, prompt, chunkSize, caller, now)];
    }

    /** `update_metrics`: the user's record, or a zero record, gains one
        inference, counted as a success or a failure. */
    method UpdateMetrics(user: AccountId, success: bool)
      requires Valid()
      modifies this
      ensures Valid()
      ensures userMetrics == old(userMetrics)[user := Bumped(Find(old(userMetrics), user), success)]
      ensures batches == old(batches) && streams == old(streams)
      ensures owner == old(owner) && modelRegistry == old(modelRegistry)
    {
      var m := Bumped(Find(userMetrics, user), success);
      assert Wellformed(m) by { BumpKeepsBalance(Find(userMetrics, user), success); }
      StoreMetricsKeepsStored(batches, streams, userMetrics, user, m);
      userMetrics := userMetrics[user := m];
    }
  }
}
