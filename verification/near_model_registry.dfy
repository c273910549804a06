/** The AI model registry of the NEAR deployment: the owner registers and
    edits model descriptions, anyone files an inference request against an
    active model, and the owner (standing for the TEE service) files the
    result, which settles the request's status. A panic aborts the call with
    no state change (a `Fail` here); the block timestamp and the caller are
    parameters. */
module NearModelRegistry {
  import opened Base

  /** NEAR account names, model ids and request ids: strings the contract
      only stores and compares, so the model keeps them abstract. */
  type AccountId(==, !new)
  type ModelId(==, !new)
  type RequestId(==, !new)

  datatype ModelMetadata = ModelMetadata(
    modelId: ModelId,
    name: string,
    description: string,
    modelType: string,
    version: string,
    owner: AccountId,
    teeRequired: bool,
    attestationRequired: bool,
    costPerInference: U128,
    createdAt: nat,
    updatedAt: nat,
    isActive: bool)

  /** The status strings a request can carry. `Processing` is named by the
      contract but never written by it. */
  datatype RequestStatus = Pending | Processing | Completed | Failed

  datatype InferenceRequest = InferenceRequest(
    requestId: RequestId,
    modelId: ModelId,
    userId: AccountId,
    prompt: string,
    encryptedData: Option<seq<Byte>>,
    requireAttestation: bool,
    createdAt: nat,
    status: RequestStatus)

  datatype TeeAttestation = TeeAttestation(
    enclaveId: string,
    attestationProof: string,
    timestamp: nat,
    publicKey: string,
    quote: string)

  datatype InferenceResult = InferenceResult(
    requestId: RequestId,
    result: string,
    attestation: Option<TeeAttestation>,
    inferenceId: string,
    timestamp: nat,
    verified: bool)

  datatype Error = OnlyOwner | ModelNotFound | ModelNotActive | AttestationRequired

  // ---------------------------------------------------------------------------
  // Guards, in the order the handlers evaluate them

  /** `assert_owner`. */
  function OwnerCheck(caller: AccountId, owner: AccountId): (r: Outcome<Error>)
    ensures r == Pass <==> caller == owner
    ensures r.Fail? ==> r.error == OnlyOwner
  {
    if caller != owner then Fail(OnlyOwner) else Pass
  }

  /** `update_model`: the caller is checked before the model is looked up. */
  function UpdateModelCheck(isOwner: bool, modelExists: bool): (r: Outcome<Error>)
    ensures r == Pass <==> isOwner && modelExists
    ensures !isOwner ==> r == Fail(OnlyOwner)
    ensures isOwner && !modelExists ==> r == Fail(ModelNotFound)
  {
    if !isOwner then Fail(OnlyOwner)
    else if !modelExists then Fail(ModelNotFound)
    else Pass
  }

  /** `create_inference_request`: the model must exist and be active, and a
      model that demands attestation only takes requests that ask for it. */
  function InferenceRequestCheck(model: Option<ModelMetadata>, requireAttestation: bool): (r: Outcome<Error>)
    ensures r == Pass <==>
      model.Some? && model.value.isActive && (model.value.attestationRequired ==> requireAttestation)
    ensures model.None? ==> r == Fail(ModelNotFound)
    ensures model.Some? && !model.value.isActive ==> r == Fail(ModelNotActive)
    ensures model.Some? && model.value.isActive && model.value.attestationRequired && !requireAttestation
      ==> r == Fail(AttestationRequired)
  {
    if model.None? then Fail(ModelNotFound)
    else if !model.value.isActive then Fail(ModelNotActive)
    else if model.value.attestationRequired && !requireAttestation then Fail(AttestationRequired)
    else Pass
  }

  // ---------------------------------------------------------------------------
  // Records

  /** `update_model` on one record: each field given as `Some` is replaced,
      the rest are kept, and the update time is always stamped. */
  function UpdatedModel(
    m: ModelMetadata, name: Option<string>, description: Option<string>, version: Option<string>,
    costPerInference: Option<U128>, isActive: Option<bool>, now: nat)
    : (r: ModelMetadata)
    ensures r.name == (if name.Some? then name.value else m.name)
    ensures r.description == (if description.Some? then description.value else m.description)
    ensures r.version == (if version.Some? then version.value else m.version)
    ensures r.costPerInference == (if costPerInference.Some? then costPerInference.value else m.costPerInference)
    ensures r.isActive == (if isActive.Some? then isActive.value else m.isActive)
    ensures r.updatedAt == now
    ensures r.modelId == m.modelId && r.modelType == m.modelType && r.owner == m.owner
    ensures r.teeRequired == m.teeRequired && r.attestationRequired == m.attestationRequired
    ensures r.createdAt == m.createdAt
  {
    m.(name := if name.Some? then name.value else m.name,
       description := if description.Some? then description.value else m.description,
       version := if version.Some? then version.value else m.version,
       costPerInference := if costPerInference.Some? then costPerInference.value else m.costPerInference,
       isActive := if isActive.Some? then isActive.value else m.isActive,
       updatedAt := now)
  }

  /** An update that passes no field only stamps the time, and applying the
      same update twice is the same as applying it once. */
  lemma UpdateModelTouchesOnlyGivenFields(
    m: ModelMetadata, name: Option<string>, description: Option<string>, version: Option<string>,
    costPerInference: Option<U128>, isActive: Option<bool>, now: nat)
    ensures UpdatedModel(m, None, None, None, None, None, now) == m.(updatedAt := now)
    ensures var r := UpdatedModel(m, name, description, version, costPerInference, isActive, now);
      UpdatedModel(r, name, description, version, costPerInference, isActive, now) == r
  {
  }

  /** The status `store_inference_result` gives an existing request. */
  function ResultStatus(verified: bool): (s: RequestStatus)
    ensures s == Completed <==> verified
    ensures s == RequestStatus.Failed <==> !verified
  {
    if verified then Completed else RequestStatus.Failed
  }

  /** `verify_attestation`: an attestation is accepted when it names an
      enclave, carries a proof and has a non-zero timestamp. */
  predicate VerifyAttestation(a: TeeAttestation) {
    |a.enclaveId| > 0 && |a.attestationProof| > 0 && a.timestamp > 0
  }

  /** The check reads only the enclave id, the proof and the timestamp: the
      public key and the quote are never examined, so any key and any quote
      pass alongside a well-formed triple. */
  lemma VerifyAttestationIgnoresKeyAndQuote(a: TeeAttestation, publicKey: string, quote: string)
    ensures VerifyAttestation(a.(publicKey := publicKey, quote := quote)) == VerifyAttestation(a)
    ensures VerifyAttestation(a) <==>
      a.enclaveId != [] && a.attestationProof != [] && a.timestamp != 0
  {
  }

  // ---------------------------------------------------------------------------
  // The contract state

  /** Every stored record sits under its own id, and the id set is exactly
      the set of registered models. */
  ghost predicate Keyed(
    models: map<ModelId, ModelMetadata>, modelIds: set<ModelId>,
    requests: map<RequestId, InferenceRequest>, results: map<RequestId, InferenceResult>)
  {
    && modelIds == models.Keys
    && (forall id :: id in models ==> models[id].modelId == id)
    && (forall id :: id in requests ==> requests[id].requestId == id && requests[id].modelId in models)
    && (forall id :: id in results ==> results[id].requestId == id)
  }

  /** A request that has left `Pending` has a stored result, and the request
      reads `Completed` exactly when that result is marked verified; no
      request is ever `Processing`. */
  ghost predicate StatusMatchesResult(
    requests: map<RequestId, InferenceRequest>, results: map<RequestId, InferenceResult>)
  {
    forall id :: id in requests ==>
      && requests[id].status != Processing
      && (requests[id].status != Pending ==>
            id in results && requests[id].status == ResultStatus(results[id].verified))
  }

  /** Filing a result keeps every request in step with its result. */
  lemma StoreResultKeepsStatus(
    requests: map<RequestId, InferenceRequest>, results: map<RequestId, InferenceResult>,
    id: RequestId, res: InferenceResult)
    requires StatusMatchesResult(requests, results)
    requires res.requestId == id
    ensures var requests' :=
        if id in requests then requests[id := requests[id].(status := ResultStatus(res.verified))]
        else requests;
      StatusMatchesResult(requests', results[id := res])
  {
  }

  class Registry {
    var models: map<ModelId, ModelMetadata>
    /** `model_ids`, an unordered set. */
    var modelIds: set<ModelId>
    var requests: map<RequestId, InferenceRequest>
    var results: map<RequestId, InferenceResult>
    var owner: AccountId

    ghost predicate Valid()
      reads this
    {
      Keyed(models, modelIds, requests, results) && StatusMatchesResult(requests, results)
    }

    /** `new`: empty tables. */
    constructor (owner: AccountId)
      ensures Valid()
      ensures this.owner == owner
      ensures models == map[] && modelIds == {} && requests == map[] && results == map[]
    {
      this.owner := owner;
      models := map[];
      modelIds := {};
      requests := map[];
      results := map[];
    }

    /** `register_model`: owner only; the model starts active with equal
        creation and update times, and an existing id is overwritten. */
    method RegisterModel(
      caller: AccountId, modelId: ModelId, name: string, description: string, modelType: string,
      version: string, teeRequired: bool, attestationRequired: bool, costPerInference: U128, now: nat)
      returns (r: Outcome<Error>)
      requires Valid()
      modifies this
      ensures Valid()
      ensures r == OwnerCheck(caller, old(owner))
      ensures r.Pass? ==>
        && models == old(models)[modelId := ModelMetadata(
             modelId, name, description, modelType, version, caller, teeRequired, attestationRequired,
             costPerInference, now, now, true)]
        && modelIds == old(modelIds) + {modelId}
      ensures r.Fail? ==> models == old(models) && modelIds == old(modelIds)
      ensures requests == old(requests) && results == old(results) && owner == old(owner)
    {
      r := OwnerCheck(caller, owner);
      if r.Fail? {
        return;
      }
      var model := ModelMetadata(modelId, name, description, modelType, version, caller,
                                 teeRequired, attestationRequired, costPerInference, now, now, true);
      models := models[modelId := model];
      modelIds := modelIds + {modelId};
    }

    /** `update_model`: owner only, on a registered model. */
    method UpdateModel(
      caller: AccountId, modelId: ModelId, name: Option<string>, description: Option<string>,
      version: Option<string>, costPerInference: Option<U128>, isActive: Option<bool>, now: nat)
      returns (r: Outcome<Error>)
      requires Valid()
      modifies this
      ensures Valid()
      ensures r == UpdateModelCheck(caller == old(owner), modelId in old(models))
      ensures r.Pass? ==>
        models == old(models)[modelId := UpdatedModel(old(models)[modelId], name, description, version,
                                                       costPerInference, isActive, now)]
      ensures r.Fail? ==> models == old(models)
      ensures modelIds == old(modelIds) && requests == old(requests) && results == old(results)
      ensures owner == old(owner)
    {
      r := UpdateModelCheck(caller == owner, modelId in models);
      if r.Fail? {
        return;
      }
      var model := UpdatedModel(models[modelId], name, description, version, costPerInference, isActive, now);
      models := models[modelId := model];
    }

    /** `create_inference_request`: anyone may file a request against an
        active model; it starts `Pending` and replaces any request stored
        under the same id. */
    method CreateInferenceRequest(
      caller: AccountId, requestId: RequestId, modelId: ModelId, prompt: string,
      encryptedData: Option<seq<Byte>>, requireAttestation: bool, now: nat)
      returns (r: Result<InferenceRequest, Error>)
      requires Valid()
      modifies this
      ensures Valid()
      ensures r.Ok? <==> InferenceRequestCheck(Find(old(models), modelId), requireAttestation) == Pass
      ensures r.Err? ==> InferenceRequestCheck(Find(old(models), modelId), requireAttestation) == Fail(r.error)
      ensures r.Ok? ==>
        && r.value == InferenceRequest(requestId, modelId, caller, prompt, encryptedData,
                                       requireAttestation, now, Pending)
        && requests == old(requests)[requestId := r.value]
      ensures r.Ok? ==> old(models)[modelId].isActive
      ensures r.Ok? && old(models)[modelId].attestationRequired ==> r.value.requireAttestation
      ensures r.Err? ==> requests == old(requests)
      ensures models == old(models) && modelIds == old(modelIds) && results == old(results)
      ensures owner == old(owner)
    {
      var check := InferenceRequestCheck(Find(models, modelId), requireAttestation);
      if check.Fail? {
        return Err(check.error);
      }
      var request := InferenceRequest(requestId, modelId, caller, prompt, encryptedData,
                                      requireAttestation, now, Pending);
      requests := requests[requestId := request];
      r := Ok(request);
    }

    /** `store_inference_result`: owner only; the result is always stored,
        and a request under the same id, if any, is marked `Completed` or
        `Failed` by the result's own `verified` flag. */
    method StoreInferenceResult(
      caller: AccountId, requestId: RequestId, result: string, attestation: Option<TeeAttestation>,
      inferenceId: string, verified: bool, now: nat)
      returns (r: Outcome<Error>)
      requires Valid()
      modifies this
      ensures Valid()
      ensures r == OwnerCheck(caller, old(owner))
      ensures r.Pass? ==>
        results == old(results)[requestId := InferenceResult(requestId, result, attestation, inferenceId,
                                                             now, verified)]
      ensures r.Pass? && requestId in old(requests) ==>
        requests == old(requests)[requestId := old(requests)[requestId].(status := ResultStatus(verified))]
      ensures r.Fail? || requestId !in old(requests) ==> requests == old(requests)
      ensures r.Fail? ==> results == old(results)
      ensures models == old(models) && modelIds == old(modelIds) && owner == old(owner)
    {
      r := OwnerCheck(caller, owner);
      if r.Fail? {
        return;
      }
      var res := InferenceResult(requestId, result, attestation, inferenceId, now, verified);
      StoreResultKeepsStatus(requests, results, requestId, res);
      results := results[requestId := res];
      if requestId in requests {
        requests := requests[requestId := requests[requestId].(status := ResultStatus(verified))];
      }
    }
  }
}
