/** The AI-model registry of the Solana program: model metadata with length
    limits on its strings, single and batch inference requests paid in
    lamports to the model's owner, results stored by the requesting user,
    and per-user usage metrics. Strings are byte strings, since the limits
    bound `String::len`, the length in bytes. */
module SolanaInference {
  import opened Base
  import opened SolanaErrors
  import Ledger

  type Pubkey = nat
  type Text = seq<Byte>

  const MAX_NAME_LEN: nat := 32
  const MAX_DESCRIPTION_LEN: nat := 256
  const MAX_VERSION_LEN: nat := 16
  /** Model types: 0 LLM, 1 embedding, 2 classifier, 3 other. */
  const MAX_MODEL_TYPE: nat := 3
  const MAX_BATCH: nat := 100

  /** Request statuses as stored (1, processing, is never written). */
  const PENDING: nat := 0
  const COMPLETED: nat := 2
  const FAILED: nat := 3

  /** `Pubkey::default()`, the user field of freshly created metrics. */
  const DEFAULT_KEY: Pubkey := 0

  datatype ModelMetadata = ModelMetadata(
    modelId: U64,
    name: Text,
    description: Text,
    modelType: nat,
    version: Text,
    owner: Pubkey,
    teeRequired: bool,
    attestationRequired: bool,
    costPerInference: U64,
    createdAt: int,
    updatedAt: int,
    isActive: bool)

  datatype InferenceRequest = InferenceRequest(
    requestId: U64,
    modelId: U64,
    user: Pubkey,
    promptHash: Bytes32,
    requireAttestation: bool,
    createdAt: int,
    status: nat,
    resultHash: Bytes32,
    attestationHash: Bytes32)

  datatype BatchInference = BatchInference(
    batchId: U64,
    modelId: U64,
    promptCount: U32,
    user: Pubkey,
    requireAttestation: bool,
    createdAt: int,
    completedCount: nat,
    failedCount: nat)

  datatype UserMetrics = UserMetrics(
    user: Pubkey,
    totalInferences: nat,
    successfulInferences: nat,
    failedInferences: nat,
    totalCost: nat,
    averageLatencyMs: nat)

  /** The fields `update_model` may change; `None` leaves a field alone. */
  datatype ModelUpdate = ModelUpdate(
    name: Option<Text>,
    description: Option<Text>,
    version: Option<Text>,
    costPerInference: Option<U64>,
    isActive: Option<bool>)

  /** The limits `register_model` and `update_model` enforce on a model. */
  predicate WithinLimits(m: ModelMetadata) {
    && |m.name| <= MAX_NAME_LEN
    && |m.description| <= MAX_DESCRIPTION_LEN
    && |m.version| <= MAX_VERSION_LEN
    && m.modelType <= MAX_MODEL_TYPE
  }

  // ---------------------------------------------------------------------------
  // Checks, in the order the account loader and the handler body run them

  function RegisterModelCheck(modelExists: bool, name: Text, description: Text, modelType: nat, version: Text)
    : (r: Outcome<ErrorCode>)
    ensures r == Pass <==>
      !modelExists && |name| <= MAX_NAME_LEN && |description| <= MAX_DESCRIPTION_LEN
      && |version| <= MAX_VERSION_LEN && modelType <= MAX_MODEL_TYPE
    ensures modelExists ==> r == Fail(AccountAlreadyInUse)
    ensures !modelExists ==>
      && (|name| > MAX_NAME_LEN ==> r == Fail(NameTooLong))
      && (|name| <= MAX_NAME_LEN && |description| > MAX_DESCRIPTION_LEN ==> r == Fail(DescriptionTooLong))
      && (|name| <= MAX_NAME_LEN && |description| <= MAX_DESCRIPTION_LEN && |version| > MAX_VERSION_LEN
          ==> r == Fail(VersionTooLong))
      && (|name| <= MAX_NAME_LEN && |description| <= MAX_DESCRIPTION_LEN && |version| <= MAX_VERSION_LEN
          && modelType > MAX_MODEL_TYPE
          ==> r == Fail(InvalidModelType))
  {
    if modelExists then Fail(AccountAlreadyInUse)
    else if |name| > MAX_NAME_LEN then Fail(NameTooLong)
    else if |description| > MAX_DESCRIPTION_LEN then Fail(DescriptionTooLong)
    else if |version| > MAX_VERSION_LEN then Fail(VersionTooLong)
    else if modelType > MAX_MODEL_TYPE then Fail(InvalidModelType)
    else Pass
  }

  /** A field passed as `Some` must respect its limit. */
  function UpdateModelCheck(model: Option<ModelMetadata>, caller: Pubkey, u: ModelUpdate): (r: Outcome<ErrorCode>)
    ensures r == Pass <==>
      && model.Some? && caller == model.value.owner
      && (u.name.Some? ==> |u.name.value| <= MAX_NAME_LEN)
      && (u.description.Some? ==> |u.description.value| <= MAX_DESCRIPTION_LEN)
      && (u.version.Some? ==> |u.version.value| <= MAX_VERSION_LEN)
    ensures model.None? ==> r == Fail(AccountNotInitialized)
    ensures model.Some? && caller != model.value.owner ==> r == Fail(Unauthorized)
    ensures model.Some? && caller == model.value.owner ==>
      var nameOk := u.name.Some? ==> |u.name.value| <= MAX_NAME_LEN;
      var descriptionOk := u.description.Some? ==> |u.description.value| <= MAX_DESCRIPTION_LEN;
      && (!nameOk ==> r == Fail(NameTooLong))
      && (nameOk && !descriptionOk ==> r == Fail(DescriptionTooLong))
      && (nameOk && descriptionOk && u.version.Some? && |u.version.value| > MAX_VERSION_LEN
          ==> r == Fail(VersionTooLong))
  {
    if model.None? then Fail(AccountNotInitialized)
    else if caller != model.value.owner then Fail(Unauthorized)
    else if u.name.Some? && |u.name.value| > MAX_NAME_LEN then Fail(NameTooLong)
    else if u.description.Some? && |u.description.value| > MAX_DESCRIPTION_LEN then Fail(DescriptionTooLong)
    else if u.version.Some? && |u.version.value| > MAX_VERSION_LEN then Fail(VersionTooLong)
    else Pass
  }

  /** The model after an update: the `Some` fields replaced, the time stamped. */
  function Apply(m: ModelMetadata, u: ModelUpdate, now: int): ModelMetadata {
    m.(name := if u.name.Some? then u.name.value else m.name,
       description := if u.description.Some? then u.description.value else m.description,
       version := if u.version.Some? then u.version.value else m.version,
       costPerInference := if u.costPerInference.Some? then u.costPerInference.value else m.costPerInference,
       isActive := if u.isActive.Some? then u.isActive.value else m.isActive,
       updatedAt := now)
  }

  /** An accepted update keeps a model within its limits, and leaves its id,
      owner, type, creation time and requirement flags alone. */
  lemma ApplyKeepsLimits(m: ModelMetadata, caller: Pubkey, u: ModelUpdate, now: int)
    requires WithinLimits(m)
    requires UpdateModelCheck(Some(m), caller, u) == Pass
    ensures WithinLimits(Apply(m, u, now))
    ensures Apply(m, u, now).(name := m.name, description := m.description, version := m.version,
                              costPerInference := m.costPerInference, isActive := m.isActive,
                              updatedAt := m.updatedAt) == m
  {
  }

  function RequestCheck(
    model: Option<ModelMetadata>, requestExists: bool, modelOwner: Pubkey, requireAttestation: bool, userBalance: nat)
    : (r: Outcome<ErrorCode>)
    ensures r == Pass <==>
      && model.Some? && !requestExists && model.value.isActive
      && modelOwner == model.value.owner
      && (model.value.attestationRequired ==> requireAttestation)
      && userBalance >= model.value.costPerInference
    ensures model.None? ==> r == Fail(AccountNotInitialized)
    ensures model.Some? && requestExists ==> r == Fail(AccountAlreadyInUse)
    ensures model.Some? && !requestExists ==>
      var m := model.value;
      && (!m.isActive ==> r == Fail(ModelNotActive))
      && (m.isActive && modelOwner != m.owner ==> r == Fail(InvalidOwner))
      && (m.isActive && modelOwner == m.owner && m.attestationRequired && !requireAttestation
          ==> r == Fail(AttestationRequired))
      && (m.isActive && modelOwner == m.owner && (m.attestationRequired ==> requireAttestation)
          && userBalance < m.costPerInference
          ==> r == Fail(InsufficientFunds))
  {
    if model.None? then Fail(AccountNotInitialized)
    else if requestExists then Fail(AccountAlreadyInUse)
    else if !model.value.isActive then Fail(ModelNotActive)
    else if modelOwner != model.value.owner then Fail(InvalidOwner)
    else if model.value.attestationRequired && !requireAttestation then Fail(AttestationRequired)
    else if userBalance < model.value.costPerInference then Fail(InsufficientFunds)
    else Pass
  }

  /** The checked `u64` product of the per-inference cost and the prompt count. */
  function BatchCost(costPerInference: U64, promptCount: U32): (r: Option<U64>)
    ensures r.Some? <==> costPerInference * promptCount < U64_LIMIT
    ensures r.Some? ==> r.value == costPerInference * promptCount
  {
    var total := costPerInference * promptCount;
    if total < U64_LIMIT then Some(total) else None
  }

  function BatchCheck(
    model: Option<ModelMetadata>, batchExists: bool, modelOwner: Pubkey, promptCount: U32, userBalance: nat)
    : (r: Outcome<ErrorCode>)
    ensures r == Pass <==>
      && model.Some? && !batchExists && model.value.isActive
      && modelOwner == model.value.owner
      && 0 < promptCount <= MAX_BATCH
      && BatchCost(model.value.costPerInference, promptCount).Some?
      && userBalance >= model.value.costPerInference * promptCount
    ensures model.Some? && !batchExists && model.value.isActive && modelOwner == model.value.owner ==>
      && (promptCount == 0 ==> r == Fail(EmptyBatch))
      && (promptCount > MAX_BATCH ==> r == Fail(BatchTooLarge))
      && (0 < promptCount <= MAX_BATCH && BatchCost(model.value.costPerInference, promptCount).None?
          ==> r == Fail(Overflow))
      && (0 < promptCount <= MAX_BATCH && BatchCost(model.value.costPerInference, promptCount).Some?
          && userBalance < model.value.costPerInference * promptCount
          ==> r == Fail(InsufficientFunds))
    ensures model.None? ==> r == Fail(AccountNotInitialized)
    ensures model.Some? && batchExists ==> r == Fail(AccountAlreadyInUse)
    ensures model.Some? && !batchExists ==>
      && (!model.value.isActive ==> r == Fail(ModelNotActive))
      && (model.value.isActive && modelOwner != model.value.owner ==> r == Fail(InvalidOwner))
  {
    if model.None? then Fail(AccountNotInitialized)
    else if batchExists then Fail(AccountAlreadyInUse)
    else if !model.value.isActive then Fail(ModelNotActive)
    else if modelOwner != model.value.owner then Fail(InvalidOwner)
    else if promptCount == 0 then Fail(EmptyBatch)
    else if promptCount > MAX_BATCH then Fail(BatchTooLarge)
    else match BatchCost(model.value.costPerInference, promptCount)
      case None => Fail(Overflow)
      case Some(total) => if userBalance < total then Fail(InsufficientFunds) else Pass
  }

  /** Up to 100 prompts the checked product overflows only when the
      per-inference cost exceeds a hundredth of the `u64` range. */
  lemma BatchCostFits(costPerInference: U64, promptCount: U32)
    requires promptCount <= MAX_BATCH
    requires costPerInference * MAX_BATCH < U64_LIMIT
    ensures BatchCost(costPerInference, promptCount).Some?
  {
    assert costPerInference * promptCount <= costPerInference * MAX_BATCH;
  }

  function StoreResultCheck(request: Option<InferenceRequest>, metricsExist: bool, caller: Pubkey)
    : (r: Outcome<ErrorCode>)
    ensures r == Pass <==> request.Some? && metricsExist && caller == request.value.user
    ensures request.None? || !metricsExist ==> r == Fail(AccountNotInitialized)
    ensures request.Some? && metricsExist && caller != request.value.user ==> r == Fail(Unauthorized)
  {
    if request.None? || !metricsExist then Fail(AccountNotInitialized)
    else if caller != request.value.user then Fail(Unauthorized)
    else Pass
  }

  /** Storing a result has no status guard either: a request whose result is
      already stored accepts another one, and each one counts again in the
      user's metrics. */
  lemma StoreResultIgnoresStatus(request: InferenceRequest, s: nat, caller: Pubkey)
    ensures StoreResultCheck(Some(request.(status := s)), true, caller)
         == StoreResultCheck(Some(request), true, caller)
  {
  }

  /** The metrics record as `init_if_needed` leaves it: zeroed when new, with
      the user filled in when it is still the default key. */
  function MetricsFor(metrics: map<Pubkey, UserMetrics>, user: Pubkey): (m: UserMetrics)
    ensures user !in metrics ==> m == UserMetrics(user, 0, 0, 0, 0, 0)
    ensures user in metrics && metrics[user].user != DEFAULT_KEY ==> m == metrics[user]
  {
    var m := if user in metrics then metrics[user] else UserMetrics(DEFAULT_KEY, 0, 0, 0, 0, 0);
    if m.user == DEFAULT_KEY then m.(user := user) else m
  }

  /** Every stored model is under its own id and within its limits, every
      request and batch under its own id, every request's status one of
      the three written, every request's user has metrics, and every
      batch holds 1 to 100 prompts. */
  ghost predicate ModelsConsistent(models: map<U64, ModelMetadata>) {
    forall k :: k in models ==> models[k].modelId == k && WithinLimits(models[k])
  }

  ghost predicate RequestsConsistent(requests: map<U64, InferenceRequest>, users: set<Pubkey>) {
    forall k :: k in requests ==>
      requests[k].requestId == k && requests[k].status in {PENDING, COMPLETED, FAILED} && requests[k].user in users
  }

  ghost predicate BatchesConsistent(batches: map<U64, BatchInference>) {
    forall k :: k in batches ==> batches[k].batchId == k && 0 < batches[k].promptCount <= MAX_BATCH
  }

  class InferenceRegistry {
    var models: map<U64, ModelMetadata>
    var requests: map<U64, InferenceRequest>
    var batches: map<U64, BatchInference>
    var metrics: map<Pubkey, UserMetrics>
    var lamports: map<Pubkey, nat>

    ghost predicate Valid()
      reads this
    {
      && ModelsConsistent(models)
      && RequestsConsistent(requests, metrics.Keys)
      && BatchesConsistent(batches)
    }

    constructor (lamports: map<Pubkey, nat>)
      ensures Valid()
      ensures models == map[] && requests == map[] && batches == map[] && metrics == map[]
      ensures this.lamports == lamports
    {
      models := map[];
      requests := map[];
      batches := map[];
      metrics := map[];
      this.lamports := lamports;
    }

    /** `register_model`: a new, active model owned by the caller. */
    method RegisterModel(
      caller: Pubkey, modelId: U64, name: Text, description: Text, modelType: nat, version: Text,
      teeRequired: bool, attestationRequired: bool, costPerInference: U64, now: int)
      returns (r: Outcome<ErrorCode>)
      requires Valid()
      modifies this
      ensures Valid()
      ensures r == RegisterModelCheck(modelId in old(models), name, description, modelType, version)
      ensures r.Pass? ==> models == old(models)[modelId := ModelMetadata(
        modelId, name, description, modelType, version, caller, teeRequired, attestationRequired,
        costPerInference, now, now, true)]
      ensures requests == old(requests) && batches == old(batches)
      ensures metrics == old(metrics) && lamports == old(lamports)
    {
      r := RegisterModelCheck(modelId in models, name, description, modelType, version);
      if r.Pass? {
        models := models[modelId := ModelMetadata(
          modelId, name, description, modelType, version, caller, teeRequired, attestationRequired,
          costPerInference, now, now, true)];
      }
    }

    /** `update_model`: owner only. */
    method UpdateModel(caller: Pubkey, modelId: U64, u: ModelUpdate, now: int) returns (r: Outcome<ErrorCode>)
      requires Valid()
      modifies this
      ensures Valid()
      ensures r == UpdateModelCheck(Find(old(models), modelId), caller, u)
      ensures r.Pass? ==> models == old(models)[modelId := Apply(old(models)[modelId], u, now)]
      ensures r.Fail? ==> models == old(models)
      ensures requests == old(requests) && batches == old(batches)
      ensures metrics == old(metrics) && lamports == old(lamports)
    {
      r := UpdateModelCheck(Find(models, modelId), caller, u);
      if r.Pass? {
        ApplyKeepsLimits(models[modelId], caller, u, now);
        models := models[modelId := Apply(models[modelId], u, now)];
      }
    }

    /** `create_inference_request`: pays the model's cost to its owner,
        stores a pending request and counts one inference. */
    method CreateInferenceRequest(
      caller: Pubkey, modelId: U64, modelOwner: Pubkey, requestId: U64, promptHash: Bytes32,
      requireAttestation: bool, now: int)
      returns (r: Outcome<ErrorCode>)
      requires Valid()
      modifies this
      ensures Valid()
      ensures r == RequestCheck(Find(old(models), modelId), requestId in old(requests), modelOwner,
                                requireAttestation, Ledger.Bal(old(lamports), caller))
      ensures r.Pass? ==>
        var model := old(models)[modelId];
        var m := MetricsFor(old(metrics), caller);
        && requests == old(requests)[requestId := InferenceRequest(
             requestId, modelId, caller, promptHash, requireAttestation, now, PENDING, ZEROS_32, ZEROS_32)]
        && lamports == Ledger.Transfer(old(lamports), caller, modelOwner, model.costPerInference)
        && metrics == old(metrics)[caller := m.(totalInferences := m.totalInferences + 1,
                                                totalCost := m.totalCost + model.costPerInference)]
      ensures r.Fail? ==> requests == old(requests) && lamports == old(lamports) && metrics == old(metrics)
      ensures models == old(models) && batches == old(batches)
    {
      r := RequestCheck(Find(models, modelId), requestId in requests, modelOwner, requireAttestation,
                        Ledger.Bal(lamports, caller));
      if r.Pass? {
        var model := models[modelId];
        lamports := Ledger.Transfer(lamports, caller, modelOwner, model.costPerInference);
        requests := requests[requestId := InferenceRequest(
          requestId, modelId, caller, promptHash, requireAttestation, now, PENDING, ZEROS_32, ZEROS_32)];
        var m := MetricsFor(metrics, caller);
        metrics := metrics[caller := m.(totalInferences := m.totalInferences + 1,
                                        totalCost := m.totalCost + model.costPerInference)];
      }
    }

    /** `create_batch_inference`: pays cost times prompt count and counts
        every prompt as an inference. */
    method CreateBatchInference(
      caller: Pubkey, modelId: U64, modelOwner: Pubkey, batchId: U64, promptCount: U32,
      requireAttestation: bool, now: int)
      returns (r: Outcome<ErrorCode>)
      requires Valid()
      modifies this
      ensures Valid()
      ensures r == BatchCheck(Find(old(models), modelId), batchId in old(batches), modelOwner, promptCount,
                              Ledger.Bal(old(lamports), caller))
      ensures r.Pass? ==>
        var model := old(models)[modelId];
        var total := model.costPerInference * promptCount;
        var m := MetricsFor(old(metrics), caller);
        && batches == old(batches)[batchId := BatchInference(
             batchId, modelId, promptCount, caller, requireAttestation, now, 0, 0)]
        && lamports == Ledger.Transfer(old(lamports), caller, modelOwner, total)
        && metrics == old(metrics)[caller := m.(totalInferences := m.totalInferences + promptCount,
                                                totalCost := m.totalCost + total)]
      ensures r.Fail? ==> batches == old(batches) && lamports == old(lamports) && metrics == old(metrics)
      ensures models == old(models) && requests == old(requests)
    {
      r := BatchCheck(Find(models, modelId), batchId in batches, modelOwner, promptCount,
                      Ledger.Bal(lamports, caller));
      if r.Pass? {
        var model := models[modelId];
        var total := model.costPerInference * promptCount;
        lamports := Ledger.Transfer(lamports, caller, modelOwner, total);
        batches := batches[batchId := BatchInference(
          batchId, modelId, promptCount, caller, requireAttestation, now, 0, 0)];
        var m := MetricsFor(metrics, caller);
        metrics := metrics[caller := m.(totalInferences := m.totalInferences + promptCount,
                                        totalCost := m.totalCost + total)];
      }
    }

    /** `store_inference_result`: only the requesting user; marks the request
        completed or failed and counts the outcome, leaving the total count
        of inferences alone. */
    method StoreInferenceResult(
      caller: Pubkey, requestId: U64, resultHash: Bytes32, attestationHash: Bytes32, verified: bool)
      returns (r: Outcome<ErrorCode>)
      requires Valid()
      modifies this
      ensures Valid()
      ensures r == StoreResultCheck(Find(old(requests), requestId),
                                    requestId in old(requests) && old(requests)[requestId].user in old(metrics),
                                    caller)
      ensures r.Pass? ==>
        var q := old(requests)[requestId];
        var m := old(metrics)[q.user];
        && requests == old(requests)[requestId := q.(resultHash := resultHash, attestationHash := attestationHash,
                                                     status := if verified then COMPLETED else FAILED)]
        && metrics == old(metrics)[q.user := if verified then m.(successfulInferences := m.successfulInferences + 1)
                                              else m.(failedInferences := m.failedInferences + 1)]
        && metrics[q.user].totalInferences == m.totalInferences
      ensures r.Fail? ==> requests == old(requests) && metrics == old(metrics)
      ensures models == old(models) && batches == old(batches) && lamports == old(lamports)
    {
      var found := Find(requests, requestId);
      r := StoreResultCheck(found, found.Some? && found.value.user in metrics, caller);
      if r.Pass? {
        var q := requests[requestId];
        requests := requests[requestId := q.(resultHash := resultHash, attestationHash := attestationHash,
                                             status := if verified then COMPLETED else FAILED)];
        var m := metrics[q.user];
        metrics := metrics[q.user := if verified then m.(successfulInferences := m.successfulInferences + 1)
                                     else m.(failedInferences := m.failedInferences + 1)];
      }
    }
  }
}
