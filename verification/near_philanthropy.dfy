/** The philanthropy agent of the NEAR deployment: a registry of causes that
    owners and verifiers vouch for, donations forwarded straight to a
    cause's recipient, a log of cross-chain bridge requests, and the
    verifier list. As in the bridge contract, a panic aborts the call with
    no state change (an `Err` here), transfers are promises appended to a
    payout log, and the block timestamp is a parameter. */
module NearPhilanthropy {
  import opened Base

  /** NEAR account names, cause ids and bridge request ids: strings the
      contract only stores and compares, so the model keeps them abstract. */
  type AccountId(==, !new)
  type CauseId(==, !new)
  type RequestId(==, !new)

  /** What a donation is stored under: its cause and the block timestamp.
      The contract renders this pair as the string `DonationId` below;
      `DonationIdInjective` shows that distinct pairs always render
      distinct strings, so keying by the pair keeps the same records. */
  datatype DonationKey = DonationKey(causeId: CauseId, timestamp: nat)

  datatype Cause = Cause(
    causeId: CauseId,
    name: string,
    description: string,
    category: string,
    recipientAddress: AccountId,
    verified: bool,
    impactScore: U8,
    totalDonations: nat,
    donorCount: nat,
    tags: seq<string>,
    createdAt: nat,
    updatedAt: nat)

  datatype Donation = Donation(
    donationId: DonationKey,
    causeId: CauseId,
    donor: AccountId,
    amount: nat,
    isCrosschain: bool,
    sourceChain: Option<string>,
    bridgeTxHash: Option<string>,
    timestamp: nat,
    isPrivate: bool)

  datatype BridgeStatus = Pending | Locked | Proved | Minted | Completed | Failed

  datatype BridgeRequest = BridgeRequest(
    requestId: RequestId,
    fromChain: string,
    toChain: string,
    amount: U128,
    token: string,
    recipient: string,
    isShielded: bool,
    status: BridgeStatus,
    lockTxHash: Option<string>,
    mintTxHash: Option<string>,
    proofHash: Option<string>,
    createdAt: nat)

  /** A transfer promise: `amount` yoctoNEAR to `receiver`. */
  datatype Payout = Payout(receiver: AccountId, amount: nat)

  datatype Error =
    | CauseAlreadyExists
    | OnlyVerifiers
    | CauseNotFound
    | ZeroDonation
    | BridgeRequestExists
    | BridgeRequestNotFound
    | OnlyOwner

  // ---------------------------------------------------------------------------
  // Donation ids: the cause id, an underscore and the block timestamp in
  // decimal.

  function DigitChar(d: nat): (c: char)
    requires d < 10
    ensures '0' <= c <= '9' && c as int - '0' as int == d
  {
    (48 + d) as char
  }

  predicate AllDigits(s: string) {
    forall j :: 0 <= j < |s| ==> '0' <= s[j] <= '9'
  }

  /** The decimal rendering of `n` (Rust's `format!("{}", n)`): no leading
      zeros, and "0" for zero. */
  function Decimal(n: nat): (s: string)
    ensures |s| > 0 && AllDigits(s)
    ensures |s| > 1 ==> s[0] != '0'
  {
    if n < 10 then [DigitChar(n)] else Decimal(n / 10) + [DigitChar(n % 10)]
  }

  /** Reads a string of decimal digits back as a number. */
  function ParseDecimal(s: string): nat
    requires AllDigits(s)
  {
    if s == [] then 0 else ParseDecimal(s[..|s| - 1]) * 10 + (s[|s| - 1] as int - '0' as int)
  }

  lemma {:induction false} DecimalRoundTrip(n: nat)
    ensures ParseDecimal(Decimal(n)) == n
  {
    if n >= 10 {
      var s := Decimal(n);
      assert s[..|s| - 1] == Decimal(n / 10);
      DecimalRoundTrip(n / 10);
    }
  }

  function DonationId(causeId: string, timestamp: nat): (id: string)
    ensures |id| > |causeId|
  {
    causeId + "_" + Decimal(timestamp)
  }

  /** Decimal digits contain no underscore, so the last underscore of a
      donation id separates the cause from the timestamp: two donations
      share an id exactly when they go to the same cause in the same
      block. */
  lemma DonationIdInjective(c1: string, t1: nat, c2: string, t2: nat)
    ensures DonationId(c1, t1) == DonationId(c2, t2) <==> c1 == c2 && t1 == t2
  {
    var d1, d2 := Decimal(t1), Decimal(t2);
    var s1, s2 := DonationId(c1, t1), DonationId(c2, t2);
    if s1 == s2 {
      assert s1[|c1|] == '_' && s2[|c2|] == '_';
      assert |c1| == |c2|;
      assert c1 == s1[..|c1|] == s2[..|c2|] == c2;
      assert d1 == s1[|c1| + 1..] == s2[|c2| + 1..] == d2;
      DecimalRoundTrip(t1);
      DecimalRoundTrip(t2);
    }
  }

  // ---------------------------------------------------------------------------
  // Guards, in the order the handlers evaluate them

  function RegisterCauseCheck(causeExists: bool): (r: Outcome<Error>)
    ensures r == Pass <==> !causeExists
    ensures causeExists ==> r == Fail(CauseAlreadyExists)
  {
    if causeExists then Fail(CauseAlreadyExists) else Pass
  }

  /** `verify_cause`: the caller is checked before the cause is looked up. */
  function VerifyCauseCheck(isOwner: bool, isVerifier: bool, causeExists: bool): (r: Outcome<Error>)
    ensures r == Pass <==> (isOwner || isVerifier) && causeExists
    ensures !isOwner && !isVerifier ==> r == Fail(OnlyVerifiers)
    ensures (isOwner || isVerifier) && !causeExists ==> r == Fail(CauseNotFound)
  {
    if !isOwner && !isVerifier then Fail(OnlyVerifiers)
    else if !causeExists then Fail(CauseNotFound)
    else Pass
  }

  /** `donate`: the deposit is checked before the cause is looked up. */
  function DonateCheck(deposit: nat, causeExists: bool): (r: Outcome<Error>)
    ensures r == Pass <==> deposit > 0 && causeExists
    ensures deposit == 0 ==> r == Fail(ZeroDonation)
    ensures deposit > 0 && !causeExists ==> r == Fail(CauseNotFound)
  {
    if deposit == 0 then Fail(ZeroDonation)
    else if !causeExists then Fail(CauseNotFound)
    else Pass
  }

  function OwnerCheck(caller: AccountId, owner: AccountId): (r: Outcome<Error>)
    ensures r == Pass <==> caller == owner
    ensures caller != owner ==> r == Fail(OnlyOwner)
  {
    if caller != owner then Fail(OnlyOwner) else Pass
  }

  // ---------------------------------------------------------------------------
  // Bridge requests

  /** `update_bridge_status` on one record: the status is replaced whatever
      it was, and each hash only when a new one is given. */
  function UpdatedRequest(
    req: BridgeRequest, status: BridgeStatus,
    lockTxHash: Option<string>, mintTxHash: Option<string>, proofHash: Option<string>)
    : (r: BridgeRequest)
    ensures r.status == status
    ensures lockTxHash.Some? ==> r.lockTxHash == lockTxHash
    ensures mintTxHash.Some? ==> r.mintTxHash == mintTxHash
    ensures proofHash.Some? ==> r.proofHash == proofHash
    ensures lockTxHash.None? ==> r.lockTxHash == req.lockTxHash
    ensures mintTxHash.None? ==> r.mintTxHash == req.mintTxHash
    ensures proofHash.None? ==> r.proofHash == req.proofHash
    ensures r.(status := req.status, lockTxHash := req.lockTxHash,
               mintTxHash := req.mintTxHash, proofHash := req.proofHash) == req
  {
    req.(status := status,
         lockTxHash := if lockTxHash.Some? then lockTxHash else req.lockTxHash,
         mintTxHash := if mintTxHash.Some? then mintTxHash else req.mintTxHash,
         proofHash := if proofHash.Some? then proofHash else req.proofHash)
  }

  /** A recorded hash is never erased, and repeating an update changes
      nothing. */
  lemma UpdateKeepsHashesAndRepeats(
    req: BridgeRequest, status: BridgeStatus,
    lockTxHash: Option<string>, mintTxHash: Option<string>, proofHash: Option<string>)
    ensures var r := UpdatedRequest(req, status, lockTxHash, mintTxHash, proofHash);
      && (req.lockTxHash.Some? ==> r.lockTxHash.Some?)
      && (req.mintTxHash.Some? ==> r.mintTxHash.Some?)
      && (req.proofHash.Some? ==> r.proofHash.Some?)
      && UpdatedRequest(r, status, lockTxHash, mintTxHash, proofHash) == r
  {
  }

  /** No transition is refused: a completed request can be moved back to
      `Pending`. */
  lemma CompletedCanReturnToPending(req: BridgeRequest)
    requires req.status == Completed
    ensures UpdatedRequest(req, Pending, None, None, None).status == Pending
    ensures UpdatedRequest(req, Pending, None, None, None) == req.(status := Pending)
  {
  }

  // ---------------------------------------------------------------------------
  // The verifier list

  /** `add_verifier` on the list: appended only when absent. */
  function WithVerifier(vs: seq<AccountId>, v: AccountId): (r: seq<AccountId>)
    ensures forall x :: x in r <==> x in vs || x == v
    ensures v in vs ==> r == vs
    ensures Distinct(vs) ==> Distinct(r)
    ensures |vs| <= |r| && r[..|vs|] == vs
  {
    if v in vs then vs else vs + [v]
  }

  /** `remove_verifier` on the list: every occurrence is dropped. */
  function WithoutVerifier(vs: seq<AccountId>, v: AccountId): (r: seq<AccountId>)
    ensures forall x :: x in r <==> x in vs && x != v
    ensures Distinct(vs) ==> Distinct(r)
  {
    FilterKeepsDistinct(vs, (x: AccountId) => x != v);
    Filter(vs, (x: AccountId) => x != v)
  }

  /** Removing a verifier that was just added restores the list. */
  lemma RemoveUndoesAdd(vs: seq<AccountId>, v: AccountId)
    requires v !in vs
    ensures WithoutVerifier(WithVerifier(vs, v), v) == vs
  {
    var p := (x: AccountId) => x != v;
    FilterAllPass(vs, p);
    FilterAppendOne(vs, v, p);
  }

  // ---------------------------------------------------------------------------
  // The contract state

  /** The sum of the running totals of the causes listed in `keys`, the
      quantity `total_donations` accumulates. */
  ghost function SumOfTotals(keys: seq<CauseId>, causes: map<CauseId, Cause>): nat {
    if keys == [] then 0
    else
      SumOfTotals(keys[..|keys| - 1], causes)
      + (if keys[|keys| - 1] in causes then causes[keys[|keys| - 1]].totalDonations else 0)
  }

  /** A cause not on the list does not contribute to the sum. */
  lemma {:induction false} SumIgnoresUnlisted(keys: seq<CauseId>, causes: map<CauseId, Cause>, k: CauseId, c: Cause)
    requires k !in keys
    ensures SumOfTotals(keys, causes[k := c]) == SumOfTotals(keys, causes)
  {
    if keys != [] {
      SumIgnoresUnlisted(keys[..|keys| - 1], causes, k, c);
    }
  }

  /** Changing the total of a cause listed once changes the sum by the
      difference. */
  lemma {:induction false} SumUpdate(keys: seq<CauseId>, causes: map<CauseId, Cause>, k: CauseId, c: Cause)
    requires Distinct(keys) && k in keys && k in causes
    ensures SumOfTotals(keys, causes[k := c]) + causes[k].totalDonations
            == SumOfTotals(keys, causes) + c.totalDonations
  {
    var init := keys[..|keys| - 1];
    if keys[|keys| - 1] == k {
      assert k !in init;
      SumIgnoresUnlisted(init, causes, k, c);
    } else {
      assert k in init;
      assert Distinct(init);
      SumUpdate(init, causes, k, c);
    }
  }

  /** Every cause is stored under its own id, and the key list holds each
      stored id once, in registration order. */
  ghost predicate CausesListed(causes: map<CauseId, Cause>, causeKeys: seq<CauseId>) {
    && (forall k :: k in causes ==> causes[k].causeId == k)
    && (forall i :: 0 <= i < |causeKeys| ==> causeKeys[i] in causes)
    && (forall k :: k in causes ==> k in causeKeys)
    && Distinct(causeKeys)
  }

  /** Every donation is stored under the id its cause and timestamp give,
      for a registered cause. */
  ghost predicate DonationsKeyed(donations: map<DonationKey, Donation>, causes: map<CauseId, Cause>) {
    forall id :: id in donations ==>
      && donations[id].donationId == id
      && id == DonationKey(donations[id].causeId, donations[id].timestamp)
      && donations[id].causeId in causes
  }

  /** The cause lists hold exactly the ids of the stored donations to
      that cause. */
  ghost predicate CauseIndexExact(donations: map<DonationKey, Donation>, byCause: map<CauseId, seq<DonationKey>>) {
    && (forall c, id :: c in byCause && id in byCause[c] ==> id in donations && donations[id].causeId == c)
    && (forall id :: id in donations ==> donations[id].causeId in byCause && id in byCause[donations[id].causeId])
  }

  /** Every stored donation is on its donor's list, and the donor lists
      name only stored donations (not necessarily ones by that donor: a
      donation from the same block to the same cause replaces the record). */
  ghost predicate DonorIndexCovers(donations: map<DonationKey, Donation>, byDonor: map<AccountId, seq<DonationKey>>) {
    && (forall d, id :: d in byDonor && id in byDonor[d] ==> id in donations)
    && (forall id :: id in donations ==> donations[id].donor in byDonor && id in byDonor[donations[id].donor])
  }

  function IndexOf<K, V>(m: map<K, seq<V>>, k: K): seq<V> {
    if k in m then m[k] else []
  }

  /** Registering a fresh cause with nothing donated keeps the causes
      listed and the grand total equal to the sum of the cause totals. */
  lemma RegisterKeepsInvariant(
    causes: map<CauseId, Cause>, causeKeys: seq<CauseId>, donations: map<DonationKey, Donation>,
    total: nat, id: CauseId, c: Cause)
    requires CausesListed(causes, causeKeys) && DonationsKeyed(donations, causes)
    requires total == SumOfTotals(causeKeys, causes)
    requires id !in causes && c.causeId == id && c.totalDonations == 0
    ensures CausesListed(causes[id := c], causeKeys + [id]) && DonationsKeyed(donations, causes[id := c])
    ensures total == SumOfTotals(causeKeys + [id], causes[id := c])
  {
    var keys := causeKeys + [id];
    assert keys[..|keys| - 1] == causeKeys;
    SumIgnoresUnlisted(causeKeys, causes, id, c);
    forall i, j | 0 <= i < j < |keys| ensures keys[i] != keys[j] {
      if j == |causeKeys| {
        assert keys[i] == causeKeys[i];
      }
    }
  }

  /** Replacing a cause by a record with the same id and the same total
      (what `verify_cause` does) keeps every part of the state. */
  lemma SameTotalKeepsInvariant(
    causes: map<CauseId, Cause>, causeKeys: seq<CauseId>, donations: map<DonationKey, Donation>,
    total: nat, id: CauseId, c: Cause)
    requires CausesListed(causes, causeKeys) && DonationsKeyed(donations, causes)
    requires total == SumOfTotals(causeKeys, causes)
    requires id in causes && c.causeId == id && c.totalDonations == causes[id].totalDonations
    ensures CausesListed(causes[id := c], causeKeys) && DonationsKeyed(donations, causes[id := c])
    ensures total == SumOfTotals(causeKeys, causes[id := c])
  {
    SumUpdate(causeKeys, causes, id, c);
  }

  /** A donation of `amount` to cause `cid` grows the cause total and the
      grand total by the same amount. */
  lemma DonateKeepsTotals(
    causes: map<CauseId, Cause>, causeKeys: seq<CauseId>, total: nat, cid: CauseId, c: Cause, amount: nat)
    requires CausesListed(causes, causeKeys) && total == SumOfTotals(causeKeys, causes)
    requires cid in causes && c.causeId == cid && c.totalDonations == causes[cid].totalDonations + amount
    ensures CausesListed(causes[cid := c], causeKeys)
    ensures total + amount == SumOfTotals(causeKeys, causes[cid := c])
  {
    SumUpdate(causeKeys, causes, cid, c);
  }

  /** Storing a donation under the id its cause and block give, and listing
      it under its cause, keeps the records keyed and the cause lists exact,
      even when it replaces an earlier donation from the same block. */
  lemma DonateKeepsCauseIndex(
    donations: map<DonationKey, Donation>, causes: map<CauseId, Cause>, byCause: map<CauseId, seq<DonationKey>>, d: Donation)
    requires DonationsKeyed(donations, causes) && CauseIndexExact(donations, byCause)
    requires d.causeId in causes && d.donationId == DonationKey(d.causeId, d.timestamp)
    ensures DonationsKeyed(donations[d.donationId := d], causes)
    ensures CauseIndexExact(donations[d.donationId := d],
                            byCause[d.causeId := IndexOf(byCause, d.causeId) + [d.donationId]])
  {
    var id, cid := d.donationId, d.causeId;
    var donations1 := donations[id := d];
    var byCause1 := byCause[cid := IndexOf(byCause, cid) + [id]];
    forall k, x | k in byCause1 && x in byCause1[k]
      ensures x in donations1 && donations1[x].causeId == k
    {
    }
  }

  /** Listing a stored donation under its donor keeps the donor lists
      covering every record. */
  lemma DonateKeepsDonorIndex(donations: map<DonationKey, Donation>, byDonor: map<AccountId, seq<DonationKey>>, d: Donation)
    requires DonorIndexCovers(donations, byDonor)
    ensures DonorIndexCovers(donations[d.donationId := d],
                             byDonor[d.donor := IndexOf(byDonor, d.donor) + [d.donationId]])
  {
    var id := d.donationId;
    var byDonor1 := byDonor[d.donor := IndexOf(byDonor, d.donor) + [id]];
    forall k, x | k in byDonor1 && x in byDonor1[k]
      ensures x in donations[id := d]
    {
      if k == d.donor && x !in IndexOf(byDonor, k) {
        assert x == id;
      }
    }
  }

  class Agent {
    var causes: map<CauseId, Cause>
    /** The keys of `causes` in insertion order (`keys_as_vector`). */
    var causeKeys: seq<CauseId>
    var donations: map<DonationKey, Donation>
    var bridgeRequests: map<RequestId, BridgeRequest>
    var donationsByDonor: map<AccountId, seq<DonationKey>>
    var donationsByCause: map<CauseId, seq<DonationKey>>
    var totalDonations: nat
    var owner: AccountId
    var verifiers: seq<AccountId>
    var payouts: seq<Payout>

    ghost predicate Valid()
      reads this
    {
      && CausesListed(causes, causeKeys)
      && DonationsKeyed(donations, causes)
      && CauseIndexExact(donations, donationsByCause)
      && DonorIndexCovers(donations, donationsByDonor)
      && totalDonations == SumOfTotals(causeKeys, causes)
      && Distinct(verifiers)
    }

    /** `new`: empty tables, no verifiers. */
    constructor (owner: AccountId)
      ensures Valid()
      ensures this.owner == owner && verifiers == []
      ensures causes == map[] && causeKeys == [] && donations == map[] && bridgeRequests == map[]
      ensures donationsByDonor == map[] && donationsByCause == map[]
      ensures totalDonations == 0 && payouts == []
    {
      this.owner := owner;
      causes := map[];
      causeKeys := [];
      donations := map[];
      bridgeRequests := map[];
      donationsByDonor := map[];
      donationsByCause := map[];
      totalDonations := 0;
      verifiers := [];
      payouts := [];
    }

    /** `register_cause`: a new cause starts unverified with nothing
        donated. */
    method RegisterCause(
      causeId: CauseId, name: string, description: string, category: string,
      recipientAddress: AccountId, tags: seq<string>, now: nat)
      returns (r: Result<Cause, Error>)
      requires Valid()
      modifies this
      ensures Valid()
      ensures r.Ok? <==> RegisterCauseCheck(causeId in old(causes)) == Pass
      ensures r.Err? ==> r.error == CauseAlreadyExists
      ensures r.Ok? ==>
        && r.value == Cause(causeId, name, description, category, recipientAddress,
                            false, 0, 0, 0, tags, now, now)
        && causes == old(causes)[causeId := r.value]
        && causeKeys == old(causeKeys) + [causeId]
      ensures r.Err? ==> causes == old(causes) && causeKeys == old(causeKeys)
      ensures donations == old(donations) && bridgeRequests == old(bridgeRequests)
      ensures donationsByDonor == old(donationsByDonor) && donationsByCause == old(donationsByCause)
      ensures totalDonations == old(totalDonations) && owner == old(owner)
      ensures verifiers == old(verifiers) && payouts == old(payouts)
    {
      var check := RegisterCauseCheck(causeId in causes);
      if check.Fail? {
        return Err(check.error);
      }
      var cause := Cause(causeId, name, description, category, recipientAddress, false, 0, 0, 0, tags, now, now);
      RegisterKeepsInvariant(causes, causeKeys, donations, totalDonations, causeId, cause);
      causes := causes[causeId := cause];
      causeKeys := causeKeys + [causeId];
      r := Ok(cause);
    }

    /** `verify_cause`: the owner or a listed verifier marks the cause
        verified with the given impact score. */
    method VerifyCause(caller: AccountId, causeId: CauseId, impactScore: U8, now: nat)
      returns (r: Outcome<Error>)
      requires Valid()
      modifies this
      ensures Valid()
      ensures r == VerifyCauseCheck(caller == old(owner), caller in old(verifiers), causeId in old(causes))
      ensures r.Pass? ==>
        causes == old(causes)[causeId := old(causes)[causeId].(verified := true, impactScore := impactScore,
                                                              updatedAt := now)]
      ensures r.Fail? ==> causes == old(causes)
      ensures causeKeys == old(causeKeys) && donations == old(donations) && bridgeRequests == old(bridgeRequests)
      ensures donationsByDonor == old(donationsByDonor) && donationsByCause == old(donationsByCause)
      ensures totalDonations == old(totalDonations) && owner == old(owner)
      ensures verifiers == old(verifiers) && payouts == old(payouts)
    {
      r := VerifyCauseCheck(caller == owner, caller in verifiers, causeId in causes);
      if r.Fail? {
        return;
      }
      var cause := causes[causeId].(verified := true, impactScore := impactScore, updatedAt := now);
      SameTotalKeepsInvariant(causes, causeKeys, donations, totalDonations, causeId, cause);
      causes := causes[causeId := cause];
    }

    /** `donate`: the attached deposit goes straight to the cause's
        recipient; the record is stored under the cause and the block
        timestamp, replacing any donation to that cause from the same block. */
    method Donate(caller: AccountId, deposit: nat, causeId: CauseId, isPrivate: bool, now: nat)
      returns (r: Result<Donation, Error>)
      requires Valid()
      modifies this
      ensures Valid()
      ensures r.Ok? <==> DonateCheck(deposit, causeId in old(causes)) == Pass
      ensures r.Err? ==> DonateCheck(deposit, causeId in old(causes)) == Fail(r.error)
      ensures r.Ok? ==>
        var id := DonationKey(causeId, now);
        var c := old(causes)[causeId];
        && r.value == Donation(id, causeId, caller, deposit, false, None, None, now, isPrivate)
        && donations == old(donations)[id := r.value]
        && causes == old(causes)[causeId := c.(totalDonations := c.totalDonations + deposit,
                                               donorCount := c.donorCount + 1, updatedAt := now)]
        && totalDonations == old(totalDonations) + deposit
        && payouts == old(payouts) + [Payout(c.recipientAddress, deposit)]
        && donationsByDonor == old(donationsByDonor)[caller := IndexOf(old(donationsByDonor), caller) + [id]]
        && donationsByCause == old(donationsByCause)[causeId := IndexOf(old(donationsByCause), causeId) + [id]]
      ensures r.Err? ==>
        && causes == old(causes) && donations == old(donations) && totalDonations == old(totalDonations)
        && payouts == old(payouts)
        && donationsByDonor == old(donationsByDonor) && donationsByCause == old(donationsByCause)
      ensures causeKeys == old(causeKeys) && bridgeRequests == old(bridgeRequests)
      ensures owner == old(owner) && verifiers == old(verifiers)
    {
      var check := DonateCheck(deposit, causeId in causes);
      if check.Fail? {
        return Err(check.error);
      }
      var c := causes[causeId];
      var donation := Donation(DonationKey(causeId, now), causeId, caller, deposit, false, None, None, now, isPrivate);
      CreditCause(causeId, deposit, now);
      StoreDonation(donation);
      r := Ok(donation);
    }

    /** The cause side of `donate`: the deposit is promised to the cause's
        recipient and added to the cause's total and to the grand total. */
    method CreditCause(causeId: CauseId, deposit: nat, now: nat)
      requires Valid() && causeId in causes
      modifies this
      ensures Valid()
      ensures causes == old(causes)[causeId := old(causes)[causeId].(
                totalDonations := old(causes)[causeId].totalDonations + deposit,
                donorCount := old(causes)[causeId].donorCount + 1, updatedAt := now)]
      ensures totalDonations == old(totalDonations) + deposit
      ensures payouts == old(payouts) + [Payout(old(causes)[causeId].recipientAddress, deposit)]
      ensures causeKeys == old(causeKeys) && donations == old(donations) && bridgeRequests == old(bridgeRequests)
      ensures donationsByDonor == old(donationsByDonor) && donationsByCause == old(donationsByCause)
      ensures owner == old(owner) && verifiers == old(verifiers)
    {
      var c := causes[causeId];
      var c' := c.(totalDonations := c.totalDonations + deposit, donorCount := c.donorCount + 1, updatedAt := now);
      DonateKeepsTotals(causes, causeKeys, totalDonations, causeId, c', deposit);
      payouts := payouts + [Payout(c.recipientAddress, deposit)];
      causes := causes[causeId := c'];
      totalDonations := totalDonations + deposit;
    }

    /** The record side of `donate`: the donation is stored under its key
        and listed under its donor and its cause. */
    method StoreDonation(d: Donation)
      requires Valid() && d.causeId in causes && d.donationId == DonationKey(d.causeId, d.timestamp)
      modifies this
      ensures Valid()
      ensures donations == old(donations)[d.donationId := d]
      ensures donationsByDonor == old(donationsByDonor)[d.donor := IndexOf(old(donationsByDonor), d.donor) + [d.donationId]]
      ensures donationsByCause == old(donationsByCause)[d.causeId := IndexOf(old(donationsByCause), d.causeId) + [d.donationId]]
      ensures causes == old(causes) && causeKeys == old(causeKeys) && bridgeRequests == old(bridgeRequests)
      ensures totalDonations == old(totalDonations) && payouts == old(payouts)
      ensures owner == old(owner) && verifiers == old(verifiers)
    {
      DonateKeepsCauseIndex(donations, causes, donationsByCause, d);
      DonateKeepsDonorIndex(donations, donationsByDonor, d);
      donations := donations[d.donationId := d];
      donationsByDonor := donationsByDonor[d.donor := IndexOf(donationsByDonor, d.donor) + [d.donationId]];
      donationsByCause := donationsByCause[d.causeId := IndexOf(donationsByCause, d.causeId) + [d.donationId]];
    }

    /** `create_bridge_request`: a new request starts `Pending` with no
        hashes. */
    method CreateBridgeRequest(
      requestId: RequestId, fromChain: string, toChain: string, amount: U128, token: string,
      recipient: string, isShielded: bool, now: nat)
      returns (r: Result<BridgeRequest, Error>)
      requires Valid()
      modifies this
      ensures Valid()
      ensures r.Ok? <==> requestId !in old(bridgeRequests)
      ensures r.Err? ==> r.error == BridgeRequestExists && bridgeRequests == old(bridgeRequests)
      ensures r.Ok? ==>
        && r.value == BridgeRequest(requestId, fromChain, toChain, amount, token, recipient, isShielded,
                                    Pending, None, None, None, now)
        && bridgeRequests == old(bridgeRequests)[requestId := r.value]
      ensures causes == old(causes) && causeKeys == old(causeKeys) && donations == old(donations)
      ensures donationsByDonor == old(donationsByDonor) && donationsByCause == old(donationsByCause)
      ensures totalDonations == old(totalDonations) && owner == old(owner)
      ensures verifiers == old(verifiers) && payouts == old(payouts)
    {
      if requestId in bridgeRequests {
        return Err(BridgeRequestExists);
      }
      var request := BridgeRequest(requestId, fromChain, toChain, amount, token, recipient, isShielded,
                                   Pending, None, None, None, now);
      bridgeRequests := bridgeRequests[requestId := request];
      r := Ok(request);
    }

    /** `update_bridge_status`: anyone may call it, with any status. */
    method UpdateBridgeStatus(
      requestId: RequestId, status: BridgeStatus,
      lockTxHash: Option<string>, mintTxHash: Option<string>, proofHash: Option<string>)
      returns (r: Outcome<Error>)
      requires Valid()
      modifies this
      ensures Valid()
      ensures r.Pass? <==> requestId in old(bridgeRequests)
      ensures r.Fail? ==> r.error == BridgeRequestNotFound && bridgeRequests == old(bridgeRequests)
      ensures r.Pass? ==>
        bridgeRequests == old(bridgeRequests)[requestId :=
          UpdatedRequest(old(bridgeRequests)[requestId], status, lockTxHash, mintTxHash, proofHash)]
      ensures causes == old(causes) && causeKeys == old(causeKeys) && donations == old(donations)
      ensures donationsByDonor == old(donationsByDonor) && donationsByCause == old(donationsByCause)
      ensures totalDonations == old(totalDonations) && owner == old(owner)
      ensures verifiers == old(verifiers) && payouts == old(payouts)
    {
      if requestId !in bridgeRequests {
        return Fail(BridgeRequestNotFound);
      }
      var request := UpdatedRequest(bridgeRequests[requestId], status, lockTxHash, mintTxHash, proofHash);
      bridgeRequests := bridgeRequests[requestId := request];
      r := Pass;
    }

    /** `get_all_causes`: the stored causes whose keys sit at positions
        `fromIndex ..` of the key list, at most `limit` of them. */
    function AllCauses(fromIndex: nat, limit: nat): (r: seq<Cause>)
      reads this
      ensures |r| <= limit
      ensures Valid() ==>
        && |r| == |Window(causeKeys, fromIndex, limit)|
        && forall j :: 0 <= j < |r| ==> r[j] == causes[causeKeys[fromIndex + j]]
    {
      LookupAll(Window(causeKeys, fromIndex, limit), causes)
    }

    /** `get_verified_causes`: at most `limit` verified causes, drawn from a
        window twice as wide; when that window holds no more than `limit`
        verified causes, all of them are returned. */
    function VerifiedCauses(fromIndex: nat, limit: nat): (r: seq<Cause>)
      reads this
      ensures |r| <= limit
      ensures forall c :: c in r ==> c.verified && c in AllCauses(fromIndex, 2 * limit)
      ensures |Filter(AllCauses(fromIndex, 2 * limit), (c: Cause) => c.verified)| <= limit ==>
        forall c :: c in AllCauses(fromIndex, 2 * limit) && c.verified ==> c in r
    {
      var verified := Filter(AllCauses(fromIndex, 2 * limit), (c: Cause) => c.verified);
      var r := Take(verified, limit);
      assert forall c :: c in r ==> c in verified;
      r
    }

    /** `add_verifier`: owner only; adding a listed verifier changes nothing. */
    method AddVerifier(caller: AccountId, verifier: AccountId) returns (r: Outcome<Error>)
      requires Valid()
      modifies this
      ensures Valid()
      ensures r == OwnerCheck(caller, old(owner))
      ensures verifiers == if r.Pass? then WithVerifier(old(verifiers), verifier) else old(verifiers)
      ensures causes == old(causes) && causeKeys == old(causeKeys) && donations == old(donations)
      ensures bridgeRequests == old(bridgeRequests)
      ensures donationsByDonor == old(donationsByDonor) && donationsByCause == old(donationsByCause)
      ensures totalDonations == old(totalDonations) && owner == old(owner) && payouts == old(payouts)
    {
      r := OwnerCheck(caller, owner);
      if r.Pass? && verifier !in verifiers {
        verifiers := verifiers + [verifier];
      }
    }

    /** `remove_verifier`: owner only; every occurrence is removed. */
    method RemoveVerifier(caller: AccountId, verifier: AccountId) returns (r: Outcome<Error>)
      requires Valid()
      modifies this
      ensures Valid()
      ensures r == OwnerCheck(caller, old(owner))
      ensures verifiers == if r.Pass? then WithoutVerifier(old(verifiers), verifier) else old(verifiers)
      ensures causes == old(causes) && causeKeys == old(causeKeys) && donations == old(donations)
      ensures bridgeRequests == old(bridgeRequests)
      ensures donationsByDonor == old(donationsByDonor) && donationsByCause == old(donationsByCause)
      ensures totalDonations == old(totalDonations) && owner == old(owner) && payouts == old(payouts)
    {
      r := OwnerCheck(caller, owner);
      if r.Pass? {
        verifiers := WithoutVerifier(verifiers, verifier);
      }
    }
  }
}
