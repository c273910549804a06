/** Basis-point fee arithmetic: `fee = floor(amount * bps / 10000)` and the
    solver's reward is what is left. Every host and circuit computes its fee
    with this formula (multiply first, then divide). */
module Fees {

  const BPS_DENOMINATOR: nat := 10000

  /** The ceiling both hosts' `set_protocol_fee` enforce (10%). */
  const MAX_PROTOCOL_FEE_BPS: nat := 1000

  /** The protocol fee on `amount` at `bps` basis points, rounded down. */
  function ProtocolFee(amount: nat, bps: nat): (fee: nat)
    ensures fee * BPS_DENOMINATOR <= amount * bps < (fee + 1) * BPS_DENOMINATOR
  {
    amount * bps / BPS_DENOMINATOR
  }

  lemma MulMonotone(a: nat, b: nat, c: nat)
    requires b <= c
    ensures a * b <= a * c
  {
  }

  /** Up to 100% the fee never exceeds the amount, so the reward
      `amount - fee` is a natural number and reward + fee == amount. */
  lemma FeeWithinAmount(amount: nat, bps: nat)
    requires bps <= BPS_DENOMINATOR
    ensures ProtocolFee(amount, bps) <= amount
  {
    var fee := ProtocolFee(amount, bps);
    MulMonotone(amount, bps, BPS_DENOMINATOR);
    assert fee * BPS_DENOMINATOR <= amount * BPS_DENOMINATOR;
  }

  /** Under the 1000 bps ceiling the fee is at most a tenth of the amount. */
  lemma FeeAtMostTenth(amount: nat, bps: nat)
    requires bps <= MAX_PROTOCOL_FEE_BPS
    ensures ProtocolFee(amount, bps) * 10 <= amount
  {
    var fee := ProtocolFee(amount, bps);
    MulMonotone(amount, bps, MAX_PROTOCOL_FEE_BPS);
    assert fee * BPS_DENOMINATOR <= amount * MAX_PROTOCOL_FEE_BPS;
  }

  /** A larger fee rate never yields a smaller fee. */
  lemma FeeMonotoneInRate(amount: nat, bps1: nat, bps2: nat)
    requires bps1 <= bps2
    ensures ProtocolFee(amount, bps1) <= ProtocolFee(amount, bps2)
  {
    MulMonotone(amount, bps1, bps2);
  }

  /** The worked example: 10000 at 250 bps is a fee of 250 and a reward of 9750. */
  lemma SettlementExample()
    ensures ProtocolFee(10000, 250) == 250
    ensures 10000 - ProtocolFee(10000, 250) == 9750
  {
  }
}
