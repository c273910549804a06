/** The bodies of the confidential-computation circuits, with the encryption
    wrapping stripped: every input and output is plaintext here. Integer
    widths are those of the circuit structs; where a circuit's arithmetic
    could overflow its width, a `requires` rules the overflow out. */
module Circuits {
  import opened Base
  import Fees

  type Bytes64 = s: seq<Byte> | |s| == 64 witness seq(64, _ => 0)

  /** Byte-wise exclusive or of two equally long byte strings. */
  function Xor(a: seq<Byte>, b: seq<Byte>): (r: seq<Byte>)
    requires |a| == |b|
    ensures |r| == |a|
    ensures forall i :: 0 <= i < |a| ==> r[i] == a[i] ^ b[i]
  {
    seq(|a|, i requires 0 <= i < |a| => a[i] ^ b[i])
  }

  /** Xor with the same key twice gives back the original bytes. */
  lemma XorInvolution(a: seq<Byte>, key: seq<Byte>)
    requires |a| == |key|
    ensures Xor(Xor(a, key), key) == a
  {
    var x := Xor(a, key);
    forall i | 0 <= i < |a|
      ensures Xor(x, key)[i] == a[i]
    {
      assert x[i] ^ key[i] == a[i] ^ key[i] ^ key[i] == a[i];
    }
  }

  // ---------------------------------------------------------------------------
  // process_inference

  datatype InferenceOutput = InferenceOutput(resultHash: Bytes32, timestamp: U64, verified: bool)

  /** Masks the prompt hash with the attestation key byte by byte; the
      timestamp is the nonce cast down to 64 bits; the model id is unused. */
  method ProcessInference(promptHash: Bytes32, modelId: U64, nonce: U128, attestationKey: Bytes32)
    returns (out: InferenceOutput)
    ensures out.resultHash == Xor(promptHash, attestationKey)
    ensures out.timestamp == nonce % U64_LIMIT
    ensures out.verified
  {
    var combined := new Byte[32](_ => 0);
    for i := 0 to 32
      invariant forall j :: 0 <= j < i ==> combined[j] == promptHash[j] ^ attestationKey[j]
    {
      combined[i] := promptHash[i] ^ attestationKey[i];
    }
    out := InferenceOutput(combined[..], nonce % U64_LIMIT, true);
  }

  /** Whoever holds the attestation key recovers the prompt hash from the result. */
  lemma InferenceResultUnmasks(promptHash: Bytes32, attestationKey: Bytes32)
    ensures Xor(Xor(promptHash, attestationKey), attestationKey) == promptHash
  {
    XorInvolution(promptHash, attestationKey);
  }

  // ---------------------------------------------------------------------------
  // verify_intent_amounts

  datatype IntentVerification = IntentVerification(rateValid: bool, amountSufficient: bool, fee: U128)

  /** `d <= floor(x / 10000)` is the same as `d * 10000 <= x`. */
  lemma FloorDivBound(d: nat, x: nat)
    ensures d <= x / Fees.BPS_DENOMINATOR <==> d * Fees.BPS_DENOMINATOR <= x
  {
    var q := x / Fees.BPS_DENOMINATOR;
    assert q * Fees.BPS_DENOMINATOR <= x < (q + 1) * Fees.BPS_DENOMINATOR;
    if d <= q {
      Fees.MulMonotone(Fees.BPS_DENOMINATOR, d, q);
    } else {
      Fees.MulMonotone(Fees.BPS_DENOMINATOR, q + 1, d);
    }
  }

  /** The rate check compares without rounding loss, the sufficiency check is
      a plain comparison, and the fee is the protocol fee on the source amount. */
  function VerifyIntentAmounts(
    sourceAmount: U128, destinationAmount: U128,
    expectedRateBps: U64, minSourceAmount: U128, protocolFeeBps: U64): (v: IntentVerification)
    requires sourceAmount * expectedRateBps < U128_LIMIT
    requires sourceAmount * protocolFeeBps < U128_LIMIT
    ensures v.rateValid <==> destinationAmount * Fees.BPS_DENOMINATOR <= sourceAmount * expectedRateBps
    ensures v.amountSufficient <==> sourceAmount >= minSourceAmount
    ensures v.fee == Fees.ProtocolFee(sourceAmount, protocolFeeBps)
  {
    var expectedDest := sourceAmount * expectedRateBps / Fees.BPS_DENOMINATOR;
    FloorDivBound(destinationAmount, sourceAmount * expectedRateBps);
    var fee := sourceAmount * protocolFeeBps / Fees.BPS_DENOMINATOR;
    IntentVerification(destinationAmount <= expectedDest, sourceAmount >= minSourceAmount, fee)
  }

  /** The worked example: 1000 source, 95 destination at a 1:1 rate, minimum
      500 and a 30 bps fee give a valid rate, a sufficient amount and a fee of 3. */
  lemma VerifyIntentAmountsExample()
    ensures VerifyIntentAmounts(1000, 95, 10000, 500, 30) == IntentVerification(true, true, 3)
  {
  }

  // ---------------------------------------------------------------------------
  // compute_settlement

  datatype SettlementDistribution = SettlementDistribution(solverReward: U128, protocolFee: U128)

  /** The fee and the reward split the total exactly. */
  function ComputeSettlement(totalAmount: U128, protocolFeeBps: U64): (d: SettlementDistribution)
    requires totalAmount * protocolFeeBps < U128_LIMIT
    requires Fees.ProtocolFee(totalAmount, protocolFeeBps) <= totalAmount
    ensures d.solverReward + d.protocolFee == totalAmount
    ensures d.protocolFee == Fees.ProtocolFee(totalAmount, protocolFeeBps)
  {
    var fee := totalAmount * protocolFeeBps / Fees.BPS_DENOMINATOR;
    SettlementDistribution(totalAmount - fee, fee)
  }

  /** At any rate up to 100% the subtraction in compute_settlement cannot underflow. */
  lemma ComputeSettlementDefined(totalAmount: U128, protocolFeeBps: U64)
    requires protocolFeeBps <= Fees.BPS_DENOMINATOR
    ensures Fees.ProtocolFee(totalAmount, protocolFeeBps) <= totalAmount
  {
    Fees.FeeWithinAmount(totalAmount, protocolFeeBps);
  }

  // ---------------------------------------------------------------------------
  // calculate_reputation

  datatype SolverMetrics = SolverMetrics(totalExecuted: U64, successful: U64, failed: U64, totalVolume: U128)

  datatype ReputationScore = ReputationScore(score: U32, tier: nat, highValueEligible: bool)

  const MAX_SCORE: nat := 1000
  const NEW_SOLVER_RATE: nat := 500
  const MAX_VOLUME_BONUS: nat := 100

  /** The circuit's `as u32` casts keep the low 32 bits. */
  function TruncU32(x: nat): nat { x % U32_LIMIT }

  /** The inputs on which the circuit's u32 and u128 arithmetic neither
      overflows nor divides by zero: the truncated success count times 1000
      plus the largest bonus fits in a u32, a nonzero execution count stays
      nonzero after truncation, and the volume bonus product fits in a u128. */
  predicate ReputationArithmeticFits(m: SolverMetrics, volumeThreshold: U128)
  {
    && TruncU32(m.successful) * 1000 + MAX_VOLUME_BONUS <= U32_MAX
    && (m.totalExecuted > 0 ==> TruncU32(m.totalExecuted) > 0)
    && (m.totalVolume < volumeThreshold ==> m.totalVolume * 100 < U128_LIMIT)
  }

  /** Division by a positive number never increases a natural number. */
  lemma DivAtMost(x: nat, d: nat)
    requires d > 0
    ensures x / d <= x
  {
    var q := x / d;
    assert q * d <= x;
    Fees.MulMonotone(q, 1, d);
  }

  /** Multiplying by the same number keeps a strict order only if the
      factors were ordered. */
  lemma MulCancelLess(a: nat, b: nat, d: nat)
    requires a * d < b * d
    ensures a < b
  {
    if b <= a {
      Fees.MulMonotone(d, b, a);
    }
  }

  /** The quotient is the unique `q` with `q * d <= x < (q + 1) * d`. */
  lemma DivUnique(x: nat, d: nat, q: nat)
    requires d > 0 && q * d <= x < (q + 1) * d
    ensures x / d == q
  {
    var r := x / d;
    assert r * d <= x < (r + 1) * d;
    MulCancelLess(r, q + 1, d);
    MulCancelLess(q, r + 1, d);
  }

  function SuccessRate(m: SolverMetrics): (rate: nat)
    requires m.totalExecuted > 0 ==> TruncU32(m.totalExecuted) > 0
    ensures m.totalExecuted == 0 ==> rate == NEW_SOLVER_RATE
    ensures m.totalExecuted > 0 ==> rate <= TruncU32(m.successful) * 1000
    ensures m.totalExecuted > 0 ==>
      rate * TruncU32(m.totalExecuted) <= TruncU32(m.successful) * 1000 < (rate + 1) * TruncU32(m.totalExecuted)
  {
    if m.totalExecuted > 0 then
      var scaled := TruncU32(m.successful) * 1000;
      DivAtMost(scaled, TruncU32(m.totalExecuted));
      scaled / TruncU32(m.totalExecuted)
    else NEW_SOLVER_RATE
  }

  /** Up to 100 points for volume; the full 100 once the threshold is met, so a
      zero threshold never reaches the division. */
  function VolumeBonus(totalVolume: nat, volumeThreshold: nat): (bonus: nat)
    ensures bonus <= MAX_VOLUME_BONUS
    ensures totalVolume >= volumeThreshold ==> bonus == MAX_VOLUME_BONUS
    ensures totalVolume < volumeThreshold ==>
      bonus * volumeThreshold <= totalVolume * 100 < (bonus + 1) * volumeThreshold
  {
    if totalVolume >= volumeThreshold then MAX_VOLUME_BONUS
    else totalVolume * 100 / volumeThreshold
  }

  /** Tiers by score thresholds 900 / 700 / 500 / 300. */
  function Tier(score: nat): (tier: nat)
    ensures 1 <= tier <= 5
    ensures tier == 5 <==> score >= 900
    ensures tier >= 4 <==> score >= 700
    ensures tier >= 3 <==> score >= 500
    ensures tier >= 2 <==> score >= 300
  {
    if score >= 900 then 5
    else if score >= 700 then 4
    else if score >= 500 then 3
    else if score >= 300 then 2
    else 1
  }

  /** A higher score never lands in a lower tier. */
  lemma TierMonotone(s1: nat, s2: nat)
    requires s1 <= s2
    ensures Tier(s1) <= Tier(s2)
  {
  }

  function Min(a: nat, b: nat): nat { if a <= b then a else b }

  function CalculateReputation(m: SolverMetrics, volumeThreshold: U128): (r: ReputationScore)
    requires ReputationArithmeticFits(m, volumeThreshold)
    ensures r.score <= MAX_SCORE
    ensures r.score == Min(MAX_SCORE, SuccessRate(m) + VolumeBonus(m.totalVolume, volumeThreshold))
    ensures 1 <= r.tier <= 5 && r.tier == Tier(r.score)
    ensures r.highValueEligible <==> r.tier >= 4 && m.totalVolume >= volumeThreshold
  {
    var successRate := SuccessRate(m);
    var volumeBonus := VolumeBonus(m.totalVolume, volumeThreshold);
    var score := if successRate + volumeBonus > MAX_SCORE then MAX_SCORE else successRate + volumeBonus;
    var tier := Tier(score);
    ReputationScore(score, tier, tier >= 4 && m.totalVolume >= volumeThreshold)
  }

  /** A solver that never failed and met the volume threshold gets the top
      score, the top tier and high-value eligibility. */
  lemma {:induction false} PerfectRecordTopTier(m: SolverMetrics, volumeThreshold: U128)
    requires ReputationArithmeticFits(m, volumeThreshold)
    requires 0 < m.totalExecuted == m.successful
    requires m.totalVolume >= volumeThreshold
    ensures CalculateReputation(m, volumeThreshold) == ReputationScore(MAX_SCORE, 5, true)
  {
    var t := TruncU32(m.totalExecuted);
    DivUnique(t * 1000, t, 1000);
  }

  /** A solver with no history and no volume sits at the middle score, tier 3,
      not eligible for high-value intents. */
  lemma NewSolverScore(volumeThreshold: U128)
    requires volumeThreshold > 0
    ensures CalculateReputation(SolverMetrics(0, 0, 0, 0), volumeThreshold) == ReputationScore(NEW_SOLVER_RATE, 3, false)
  {
  }

  // ---------------------------------------------------------------------------
  // verify_attestation

  /** All 32 enclave bytes match the expected ones, the timestamp is not older
      than the minimum, and the 64-byte quote is not all zero. */
  method VerifyAttestation(
    enclaveId: Bytes32, quoteSignature: Bytes64, timestamp: U64,
    expectedEnclaveId: Bytes32, minTimestamp: U64) returns (isValid: bool)
    ensures isValid <==>
      && enclaveId == expectedEnclaveId
      && timestamp >= minTimestamp
      && exists i :: 0 <= i < 64 && quoteSignature[i] != 0
  {
    var idMatches := true;
    for i := 0 to 32
      invariant idMatches <==> enclaveId[..i] == expectedEnclaveId[..i]
    {
      if enclaveId[i] != expectedEnclaveId[i] {
        idMatches := false;
      }
      assert enclaveId[..i + 1] == enclaveId[..i] + [enclaveId[i]];
      assert expectedEnclaveId[..i + 1] == expectedEnclaveId[..i] + [expectedEnclaveId[i]];
    }
    assert enclaveId[..32] == enclaveId && expectedEnclaveId[..32] == expectedEnclaveId;
    var timestampValid := timestamp >= minTimestamp;
    var quoteValid := false;
    for i := 0 to 64
      invariant quoteValid <==> exists j :: 0 <= j < i && quoteSignature[j] != 0
    {
      if quoteSignature[i] != 0 {
        quoteValid := true;
      }
    }
    isValid := idMatches && timestampValid && quoteValid;
  }

  // ---------------------------------------------------------------------------
  // generate_privacy_proof

  function Pow256(n: nat): (p: nat)
    ensures p >= 1
  {
    if n == 0 then 1 else 256 * Pow256(n - 1)
  }

  /** `x.to_le_bytes()` for an `n`-byte unsigned integer. */
  function LeBytes(x: nat, n: nat): (s: seq<Byte>)
    ensures |s| == n
  {
    if n == 0 then [] else [(x % 256) as Byte] + LeBytes(x / 256, n - 1)
  }

  /** Reads a little-endian byte string back as a number. */
  function FromLeBytes(s: seq<Byte>): nat {
    if s == [] then 0 else s[0] as nat + 256 * FromLeBytes(s[1..])
  }

  lemma ByteRoundTrip(v: nat)
    requires v < 256
    ensures (v as Byte) as nat == v
  {
    // one case per high nibble keeps each conversion small
    if v < 16 {
    }
    else if v < 32 {
    }
    else if v < 48 {
    }
    else if v < 64 {
    }
    else if v < 80 {
    }
    else if v < 96 {
    }
    else if v < 112 {
    }
    else if v < 128 {
    }
    else if v < 144 {
    }
    else if v < 160 {
    }
    else if v < 176 {
    }
    else if v < 192 {
    }
    else if v < 208 {
    }
    else if v < 224 {
    }
    else if v < 240 {
    }
    else {
    }
  }

  lemma HighPartFits(x: nat, p: nat)
    requires x < 256 * p
    ensures x / 256 < p
  {
  }

  /** Little-endian encoding round-trips for every value that fits. */
  lemma {:induction false} LeBytesRoundTrip(x: nat, n: nat)
    requires x < Pow256(n)
    ensures FromLeBytes(LeBytes(x, n)) == x
  {
    if n > 0 {
      var s := LeBytes(x, n);
      var hi := x / 256;
      var lo := x % 256;
      assert s == [lo as Byte] + LeBytes(hi, n - 1);
      assert s[1..] == LeBytes(hi, n - 1);
      HighPartFits(x, Pow256(n - 1));
      LeBytesRoundTrip(hi, n - 1);
      ByteRoundTrip(lo);
      assert FromLeBytes(s) == lo + 256 * hi;
    }
  }

  lemma Pow256Of16()
    ensures Pow256(16) == U128_LIMIT
  {
    assert Pow256(4) == 0x1_0000_0000;
    assert Pow256(8) == 0x1_0000_0000_0000_0000;
    assert Pow256(12) == 0x1_0000_0000_0000_0000_0000_0000;
  }

  datatype PrivacyProof = PrivacyProof(commitment: Bytes32, rangeValid: bool)

  /** The XOR "commitment": blinding xor recipient hash on all 32 bytes, with
      the amount's 16 little-endian bytes xored into the first half. */
  function Commitment(amount: U128, blinding: Bytes32, recipientHash: Bytes32): (c: Bytes32)
    ensures forall i :: 0 <= i < 16 ==> c[i] == blinding[i] ^ recipientHash[i] ^ LeBytes(amount, 16)[i]
    ensures forall i :: 16 <= i < 32 ==> c[i] == blinding[i] ^ recipientHash[i]
  {
    var amountBytes := LeBytes(amount, 16);
    seq(32, i requires 0 <= i < 32 =>
      if i < 16 then blinding[i] ^ recipientHash[i] ^ amountBytes[i] else blinding[i] ^ recipientHash[i])
  }

  method GeneratePrivacyProof(amount: U128, blinding: Bytes32, recipientHash: Bytes32, maxAmount: U128)
    returns (proof: PrivacyProof)
    ensures proof.commitment == Commitment(amount, blinding, recipientHash)
    ensures proof.rangeValid <==> amount <= maxAmount
  {
    var commitment := new Byte[32](_ => 0);
    for i := 0 to 32
      invariant forall j :: 0 <= j < i ==> commitment[j] == blinding[j] ^ recipientHash[j]
    {
      commitment[i] := blinding[i] ^ recipientHash[i];
    }
    var amountBytes := LeBytes(amount, 16);
    for i := 0 to 16
      invariant forall j :: 0 <= j < i ==> commitment[j] == blinding[j] ^ recipientHash[j] ^ amountBytes[j]
      invariant forall j :: i <= j < 32 ==> commitment[j] == blinding[j] ^ recipientHash[j]
    {
      commitment[i] := commitment[i] ^ amountBytes[i];
    }
    var rangeValid := amount <= maxAmount;
    proof := PrivacyProof(commitment[..], rangeValid);
  }

  /** Anyone holding the blinding factor and the recipient hash reads the
      amount straight out of the commitment: xoring both back leaves the
      amount's little-endian bytes followed by sixteen zero bytes. The
      commitment is plain xor; it hides nothing from such a holder. */
  lemma CommitmentOpens(amount: U128, blinding: Bytes32, recipientHash: Bytes32)
    ensures Xor(Xor(Commitment(amount, blinding, recipientHash), blinding), recipientHash)
         == LeBytes(amount, 16) + seq(16, _ => 0)
    ensures FromLeBytes(Xor(Xor(Commitment(amount, blinding, recipientHash), blinding), recipientHash)[..16]) == amount
  {
    var c := Commitment(amount, blinding, recipientHash);
    var unmasked := Xor(Xor(c, blinding), recipientHash);
    var expected := LeBytes(amount, 16) + seq(16, _ => 0);
    forall i | 0 <= i < 32
      ensures unmasked[i] == expected[i]
    {
      if i < 16 {
        assert c[i] ^ blinding[i] ^ recipientHash[i] == LeBytes(amount, 16)[i];
      } else {
        assert c[i] ^ blinding[i] ^ recipientHash[i] == 0;
      }
    }
    assert unmasked == expected;
    assert unmasked[..16] == LeBytes(amount, 16);
    Pow256Of16();
    LeBytesRoundTrip(amount, 16);
  }
}
