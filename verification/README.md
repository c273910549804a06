# Silence intent bridge, modelled in Dafny

Silence is a cross-chain intent bridge. A user locks funds on a source chain in an
*intent*: a promise that a bonded relayer, the *solver*, delivers the equivalent on a
destination chain. The intent moves through the states `Created → Matched → Executed →
Settled`, or it is failed and refunded.

The system runs on two hosts:

* **Solana (an Anchor program).** It holds lamports in per-intent vault accounts and pays
  the solver and a fee vault on settlement. Beside the bridge it keeps an inference
  registry (AI models, inference requests, batches and per-user metrics). Its
  confidential computations run as Arcium circuits.
* **NEAR (four contracts).** The bridge itself pays by promises. A philanthropy agent
  takes donations to registered causes and tracks bridge requests. A model registry
  stores models, requests and TEE results. An inference service stores batch and
  streaming jobs and usage counters.

This project models every state-changing handler of those programs and every circuit,
and proves what each promises. Of the views, only `get_active_solvers`,
`find_solvers_for_chains`, `get_all_causes` and `get_verified_causes` are modelled. The
Arcium queue and callback handlers, the other `get_*` views and the `get_stats` summaries
are left out (see below).

* **Handlers that update stored accounts** are methods of a class per program:
  `SolanaBridge.Bridge`, `SolanaInference.InferenceRegistry`, `NearBridge.Registry`,
  `NearPhilanthropy.Agent`, `NearModelRegistry.Registry` and `NearInference.Service`.
  * Each class keeps the program's tables as `map` and `seq` fields.
  * Each method states the complete new state.
  * Each method keeps a `Valid()` invariant: records are keyed by their own id, indexes
    are exact, counters agree, and an open intent's vault holds its escrow.
* **Guards** are pure functions returning `Outcome`/`Result`. They run in the order the
  host evaluates them: on Solana, the Anchor account loader and then the handler body.
  Each guard's contract states exactly when it passes and, for each failed condition,
  the error it reports: the first failing check in host order.
* **Arithmetic is spelled out.**
  * Fee arithmetic (`Fees`) is shared by all hosts.
  * Balance moves (`Ledger`) conserve the total of a balance map.
  * Checked, saturating and truncating integer operations are written out.
* **Circuits are functions and loop methods** (`Circuits`), with inverses: xor masking
  and unmasking, little-endian encoding and decoding, and a commitment that opens.
* **I/O and outside calls become parameters.** The caller, the block time, attached
  deposits and the accounts passed in are parameters. NEAR transfers are appended to a
  `payouts` log.

Where the design documentation and the code disagree, the model follows the code:

* Solana's `match_intent` checks only the destination chain against the solver's
  bitmap; the design says both chains. NEAR checks both.
* `fail_intent` has no status guard on either host. A settled intent can be failed and
  refunded again.
* A failure does not count as an execution. The counters therefore satisfy
  `total_executed == successful`, not `successful + failed <= total_executed` as designed.
* Neither host caps the reputation at 1000. NEAR adds `reputation_score += 1`, and
  Solana's `saturating_add(1)` stops only at the `u32` maximum.
* The Solana inference status `Processing` and the NEAR model-registry status
  `Processing` are never written.

## Model

| member | source | states |
|---|---|---|
| Ledger.Transfer | programs/project_silence/src/lib.rs:755-760 | moving lamports debits the source by the amount, credits the destination, and leaves every other balance alone |
| Ledger.TransferConserves | programs/project_silence/src/lib.rs:755-760 | a transfer neither creates nor destroys currency: the total of all balances is unchanged |
| Ledger.TotalUpdate | programs/project_silence/src/lib.rs:755-760 | overwriting one balance changes the total by exactly the difference |
| Fees.ProtocolFee | programs/project_silence/src/lib.rs:746-752 | the fee is `amount * bps / 10000`, rounded down |
| Fees.FeeWithinAmount | programs/project_silence/src/lib.rs:746-752 | up to 100% the fee never exceeds the amount, so reward plus fee is the amount |
| Fees.FeeAtMostTenth | programs/project_silence/src/lib.rs:966-967 | under the 1000 bps ceiling the fee is at most a tenth of the amount |
| Fees.FeeMonotoneInRate | programs/project_silence/src/lib.rs:746-752 | a larger rate never gives a smaller fee |
| Fees.SettlementExample | programs/project_silence/src/lib.rs:746-752 | 10000 lamports at 250 bps split into a fee of 250 and a reward of 9750 |
| Base.Find | silence-near-contracts/silence-bridge/src/lib.rs:317-319 | a lookup yields a value exactly when the key is stored, and then the stored value |
| Base.FilterKeepsDistinct | silence-near-contracts/silence-bridge/src/lib.rs:347-363 | filtering a list without repeats yields a list without repeats |
| Base.Window | silence-near-contracts/silence-bridge/src/lib.rs:334-345 | a page holds the entries from `from` up to `min(from + limit, len)`, in order, and is empty past the end |
| Base.SaturatingAddU32 | programs/project_silence/src/lib.rs:766 | the sum, or the `u32` maximum when it would overflow |
| Base.SaturatingSub | programs/project_silence/src/lib.rs:798-799 | the difference, or zero when it would go below zero |
| Circuits.Xor | encrypted-ixs/src/lib.rs:34-54 | byte i of the result is the xor of byte i of each input |
| Circuits.XorInvolution | encrypted-ixs/src/lib.rs:34-54 | xoring twice with the same key restores the bytes |
| Circuits.ProcessInference | encrypted-ixs/src/lib.rs:34-54 | the result hash is the prompt hash masked by the attestation key, the timestamp is the nonce cut to 64 bits, and the result is marked verified |
| Circuits.InferenceResultUnmasks | encrypted-ixs/src/lib.rs:34-54 | the holder of the attestation key recovers the prompt hash from the result |
| Circuits.FloorDivBound | encrypted-ixs/src/lib.rs:80-106 | comparing with a quotient rounded down is the same as comparing the product |
| Circuits.VerifyIntentAmounts | encrypted-ixs/src/lib.rs:80-106 | the rate is valid iff `destination * 10000 <= source * rate`, the amount suffices iff `source >= minimum`, and the fee is the protocol fee |
| Circuits.VerifyIntentAmountsExample | encrypted-ixs/src/lib.rs:80-106 | 1000 at a 1:1 rate for 95 with minimum 500 and 30 bps: valid, sufficient, fee 3 |
| Circuits.ComputeSettlement | encrypted-ixs/src/lib.rs:126-141 | fee and reward split the total exactly, and the fee is the protocol fee |
| Circuits.ComputeSettlementDefined | encrypted-ixs/src/lib.rs:126-141 | at any rate up to 100% the reward subtraction cannot underflow |
| Circuits.DivUnique | encrypted-ixs/src/lib.rs:179-190 | the quotient is the unique `q` with `q * d <= x < (q + 1) * d` |
| Circuits.SuccessRate | encrypted-ixs/src/lib.rs:179-183 | 500 for a solver with no executions; otherwise the floor of 1000 × successes / executions over the `u32`-truncated counts: `rate × executions <= successes × 1000 < (rate + 1) × executions` |
| Circuits.VolumeBonus | encrypted-ixs/src/lib.rs:186-190 | at most 100; the full 100 once the volume meets the threshold; otherwise the floor of 100 × volume / threshold: `bonus × threshold <= volume × 100 < (bonus + 1) × threshold` |
| Circuits.Tier | encrypted-ixs/src/lib.rs:200-210 | tier 5 iff score ≥ 900, at least 4 iff ≥ 700, at least 3 iff ≥ 500, at least 2 iff ≥ 300, otherwise 1 |
| Circuits.TierMonotone | encrypted-ixs/src/lib.rs:200-210 | a higher score never lands in a lower tier |
| Circuits.CalculateReputation | encrypted-ixs/src/lib.rs:171-222 | the score is the success rate plus the volume bonus, capped at 1000; the tier follows the score; high-value eligible iff tier ≥ 4 and the volume meets the threshold |
| Circuits.PerfectRecordTopTier | encrypted-ixs/src/lib.rs:171-222 | a solver that never failed and met the volume threshold scores 1000, tier 5, eligible |
| Circuits.NewSolverScore | encrypted-ixs/src/lib.rs:179-183 | a solver with no history scores 500, tier 3, not eligible |
| Circuits.VerifyAttestation | encrypted-ixs/src/lib.rs:240-270 | valid iff all 32 enclave bytes match, the timestamp is not older than the minimum, and the quote has a nonzero byte |
| Circuits.LeBytes | encrypted-ixs/src/lib.rs:309 | `to_le_bytes` gives exactly `n` bytes |
| Circuits.LeBytesRoundTrip | encrypted-ixs/src/lib.rs:309 | decoding the little-endian bytes of any value that fits gives the value back |
| Circuits.Pow256Of16 | encrypted-ixs/src/lib.rs:309 | sixteen bytes cover exactly the `u128` range |
| Circuits.Commitment | encrypted-ixs/src/lib.rs:304-312 | each byte is blinding xor recipient hash, with the amount's 16 little-endian bytes xored into the first half |
| Circuits.GeneratePrivacyProof | encrypted-ixs/src/lib.rs:296-324 | the proof carries the commitment, and the range check holds iff the amount is at most the maximum |
| Circuits.CommitmentOpens | encrypted-ixs/src/lib.rs:304-312 | whoever knows the blinding factor and the recipient hash reads the amount out of the commitment |
| SolanaBridge.ChainBit | programs/project_silence/src/lib.rs:685-693 | every chain has a single bit: 1, 2 or 4 |
| SolanaBridge.ChainBitInjective | programs/project_silence/src/lib.rs:685-693 | distinct chains have distinct bits |
| SolanaBridge.HighBitsSupportNothing | programs/project_silence/src/lib.rs:576 | a bitmap with only bits above the three chain bits passes registration yet supports no chain |
| SolanaBridge.RegisterSolverCheck | programs/project_silence/src/lib.rs:572-610 | passes iff the solver account is new, the bitmap is nonzero and the balance covers the minimum stake; an existing account fails first |
| SolanaBridge.CreateIntentCheck | programs/project_silence/src/lib.rs:613-671 | passes iff the intent account is new and `0 < amount <= creator balance`; a zero amount fails with `ZeroDeposit` |
| SolanaBridge.MatchCheck | programs/project_silence/src/lib.rs:674-704 | passes iff the intent and solver exist, the intent is `Created`, the solver active, the clock before expiry and the destination bit set |
| SolanaBridge.MatchRejectsExpired | programs/project_silence/src/lib.rs:682 | once the clock reaches `expires_at` matching fails with `IntentExpired` |
| SolanaBridge.MatchChecksDestinationOnly | programs/project_silence/src/lib.rs:685-693 | a NEAR-only solver matches a Solana→NEAR intent although it lacks the Solana bit |
| SolanaBridge.ExecuteCheck | programs/project_silence/src/lib.rs:707-735 | passes iff the caller is the bound solver and the intent is `Matched`; another caller fails with `NotMatchedSolver` |
| SolanaBridge.FeeSplit | programs/project_silence/src/lib.rs:746-752 | when no checked step fails, the reward and the fee add up to the escrowed amount; failure is `Overflow` |
| SolanaBridge.FeeSplitIsProtocolFee | programs/project_silence/src/lib.rs:746-752 | at any rate up to 100% no checked step fails and the fee is the protocol fee |
| SolanaBridge.FeeSplitExample | programs/project_silence/src/lib.rs:746-752 | 10000 lamports at 250 bps split into 9750 and 250 |
| SolanaBridge.SettleCheck | programs/project_silence/src/lib.rs:1264-1296 | passes iff the intent is `Executed`, the accounts are the bound solver and the fee vault, and the vault can pay; it then yields the fee split |
| SolanaBridge.FailCheck | programs/project_silence/src/lib.rs:1301-1324 | passes iff the caller is the bound solver, has a solver record, names the creator, and the vault holds the amount |
| SolanaBridge.FailIgnoresStatus | programs/project_silence/src/lib.rs:784-809 | the outcome of failing does not depend on the status of the intent |
| SolanaBridge.FailCallableWhenSettled | programs/project_silence/src/lib.rs:784-809 | a settled intent can still be failed by its solver and refunded |
| SolanaBridge.AdminCheck | programs/project_silence/src/lib.rs:966-972 | passes iff the caller is the owner and the fee is at most 1000 bps; a stranger fails with `Unauthorized` |
| SolanaBridge.DeactivateCheck | programs/project_silence/src/lib.rs:1509-1516 | passes iff the solver exists and the caller is the owner |
| SolanaBridge.SettleSucceedsWhenExecuted | programs/project_silence/src/lib.rs:738-781 | under the invariant an executed intent settles when the right accounts are passed, with the protocol-fee split |
| SolanaBridge.CreatedIntentCannotFail | programs/project_silence/src/lib.rs:784-809 | under the invariant an intent waiting for a solver cannot be failed |
| SolanaBridge.PayOut | programs/project_silence/src/lib.rs:755-760 | the vault loses exactly reward plus fee; the solver gains the reward and the fee vault the fee, or one wallet gains both when the solver's wallet is the fee vault; every other account keeps its balance |
| SolanaBridge.PayOutConserves | programs/project_silence/src/lib.rs:755-760 | settlement's payout keeps the total of all lamports |
| SolanaBridge.CloseIntentKeepsConsistency | programs/project_silence/src/lib.rs:769 | settling or failing a bound intent keeps every intent consistent |
| SolanaBridge.UpdateSolverKeepsConsistency | programs/project_silence/src/lib.rs:763-766 | a solver record whose counters agree keeps the solver table consistent |
| SolanaBridge.CloseKeepsConsistent | programs/project_silence/src/lib.rs:763-769 | closing an intent and updating its solver together keep intents and solvers consistent |
| SolanaBridge.Bridge.constructor | programs/project_silence/src/lib.rs:249-273 | a bridge with the given configuration, no intents, no solvers |
| SolanaBridge.Bridge.InitializeBridge | programs/project_silence/src/lib.rs:249-273 | a fee above 1000 bps fails with `FeeTooHigh`; otherwise zeroed statistics and empty tables |
| SolanaBridge.Bridge.RegisterSolver | programs/project_silence/src/lib.rs:572-610 | on the guard's pass, a new active solver with reputation 100 and zero counters; no lamports move |
| SolanaBridge.Bridge.CreateIntent | programs/project_silence/src/lib.rs:613-671 | on the guard's pass, the amount moves from the creator's wallet to the new vault, the intent is `Created` and unbound, and the total of lamports is unchanged |
| SolanaBridge.Bridge.MatchIntent | programs/project_silence/src/lib.rs:674-704 | on the guard's pass, only the intent's status and solver change, to `Matched` and the caller |
| SolanaBridge.Bridge.ExecuteIntent | programs/project_silence/src/lib.rs:707-735 | on the guard's pass, the intent is `Executed` with the transaction hash and time; the proof changes only if given |
| SolanaBridge.Bridge.SettleIntent | programs/project_silence/src/lib.rs:738-781 | the outcome is the guard's; on pass, the vault pays the split, the intent is `Settled`, the solver gains one success and the volume |
| SolanaBridge.Bridge.ApplySettlement | programs/project_silence/src/lib.rs:755-772 | the complete state after a successful settlement, keeping the invariant |
| SolanaBridge.Bridge.FailIntent | programs/project_silence/src/lib.rs:784-809 | the outcome is the guard's; on pass, the creator is refunded, the intent is `Failed` and the solver loses 5 reputation, saturating at 0 |
| SolanaBridge.Bridge.ApplyFailure | programs/project_silence/src/lib.rs:794-802 | the complete state after a successful failure, keeping the invariant |
| SolanaBridge.Bridge.SetProtocolFee | programs/project_silence/src/lib.rs:966-972 | only the owner may set the fee, to at most 1000 bps; nothing else changes |
| SolanaBridge.Bridge.DeactivateSolver | programs/project_silence/src/lib.rs:975-983 | the solver becomes inactive and the active count drops by one, saturating at 0 |
| SolanaInference.RegisterModelCheck | programs/project_silence/src/lib.rs:280-320 | passes iff the model account is new and name ≤ 32, description ≤ 256, version ≤ 16 bytes and type ≤ 3 |
| SolanaInference.UpdateModelCheck | programs/project_silence/src/lib.rs:323-360 | passes iff the model exists, the caller owns it and every given text respects its limit |
| SolanaInference.ApplyKeepsLimits | programs/project_silence/src/lib.rs:323-360 | an accepted update keeps the model within limits and touches only the given fields and the time |
| SolanaInference.RequestCheck | programs/project_silence/src/lib.rs:363-416 | passes iff the model exists and is active, the request is new, the owner account matches, attestation is requested when required, and the user can pay |
| SolanaInference.BatchCost | programs/project_silence/src/lib.rs:524 | the checked product is defined iff `cost * count` fits in `u64`, and is then that product |
| SolanaInference.BatchCheck | programs/project_silence/src/lib.rs:511-565 | passes iff the model is usable, the batch new, 1 to 100 prompts, the cost fits and the user can pay |
| SolanaInference.BatchCostFits | programs/project_silence/src/lib.rs:517-524 | up to 100 prompts the product overflows only for a cost above a hundredth of `u64` |
| SolanaInference.StoreResultCheck | programs/project_silence/src/lib.rs:1136-1137 | passes iff the request and metrics exist and the caller is the requesting user |
| SolanaInference.StoreResultIgnoresStatus | programs/project_silence/src/lib.rs:478-504 | storing a result does not consult the request's status |
| SolanaInference.MetricsFor | programs/project_silence/src/lib.rs:400-405 | a new metrics record starts zeroed for the user; an existing one is kept |
| SolanaInference.InferenceRegistry.constructor | programs/project_silence/src/lib.rs:280-320 | empty tables over the given balances |
| SolanaInference.InferenceRegistry.RegisterModel | programs/project_silence/src/lib.rs:280-320 | on the guard's pass, a new active model owned by the caller |
| SolanaInference.InferenceRegistry.UpdateModel | programs/project_silence/src/lib.rs:323-360 | on the guard's pass, the given fields replaced and the time stamped |
| SolanaInference.InferenceRegistry.CreateInferenceRequest | programs/project_silence/src/lib.rs:363-416 | on the guard's pass, the cost goes to the model owner, a pending request is stored, and the user's count and cost grow |
| SolanaInference.InferenceRegistry.CreateBatchInference | programs/project_silence/src/lib.rs:511-565 | on the guard's pass, cost times count goes to the owner and every prompt counts as an inference |
| SolanaInference.InferenceRegistry.StoreInferenceResult | programs/project_silence/src/lib.rs:478-504 | on the guard's pass, the request is completed or failed and one success or failure is counted |
| NearBridge.CreateIntentCheck | silence-near-contracts/silence-bridge/src/lib.rs:149-150 | passes iff a deposit is attached and the id is new; no deposit fails first |
| NearBridge.RegisterSolverCheck | silence-near-contracts/silence-bridge/src/lib.rs:189-191 | passes iff the stake covers the minimum, the caller is new and lists a chain, in that order |
| NearBridge.MatchCheck | silence-near-contracts/silence-bridge/src/lib.rs:212-242 | passes iff the intent is `Created`, the solver active, the time before expiry and both chains listed |
| NearBridge.MatchNeedsSourceChain | silence-near-contracts/silence-bridge/src/lib.rs:227-230 | a solver listing only the destination chain cannot match |
| NearBridge.ExecuteCheck | silence-near-contracts/silence-bridge/src/lib.rs:254-255 | passes iff the caller is the bound solver and the intent is `Matched` |
| NearBridge.SettleCheck | silence-near-contracts/silence-bridge/src/lib.rs:267-293 | passes iff the intent is `Executed` and its solver has a record |
| NearBridge.FailCheck | silence-near-contracts/silence-bridge/src/lib.rs:295-313 | passes iff the caller is the bound solver and has a record; the status is never consulted |
| NearBridge.FailCallableWhenSettled | silence-near-contracts/silence-bridge/src/lib.rs:295-313 | a settled intent can be failed and refunded after its solver was paid |
| NearBridge.SetFeeCheck | silence-near-contracts/silence-bridge/src/lib.rs:377-381 | passes iff the caller is the owner and the fee is at most 1000 bps |
| NearBridge.DeactivateCheck | silence-near-contracts/silence-bridge/src/lib.rs:383-389 | passes iff the caller is the owner and the solver exists |
| NearBridge.FindSolversForChains | silence-near-contracts/silence-bridge/src/lib.rs:347-363 | exactly the active solvers listing both chains (membership both ways) |
| NearBridge.FindSolversAppendOne | silence-near-contracts/silence-bridge/src/lib.rs:347-363 | the result keeps solver-list order: a solver appended to the list is appended to the result after every earlier match, exactly when it serves both chains |
| NearBridge.FoundSolversCanMatch | silence-near-contracts/silence-bridge/src/lib.rs:347-363 | every solver found passes the chain checks of matching for an open intent between the two chains |
| NearBridge.ActiveSolversPage | silence-near-contracts/silence-bridge/src/lib.rs:334-345 | at most `limit` solvers, exactly the active ones in the window of the list |
| NearBridge.UpdateKeepsConsistency | silence-near-contracts/silence-bridge/src/lib.rs:244-265 | storing a well-formed intent keeps the intent table consistent |
| NearBridge.SolverUpdateKeepsInvariant | silence-near-contracts/silence-bridge/src/lib.rs:383-389 | a solver update keeping chains and counters in step keeps the solver table, the list and the intents consistent |
| NearBridge.SameBindingKeepsIndexes | silence-near-contracts/silence-bridge/src/lib.rs:244-265 | changing an intent without changing creator or solver keeps both indexes exact |
| NearBridge.BindKeepsIndexes | silence-near-contracts/silence-bridge/src/lib.rs:232-239 | binding an intent and listing it under its solver keeps both indexes exact |
| NearBridge.CreateKeepsInvariant | silence-near-contracts/silence-bridge/src/lib.rs:152-178 | a fresh unbound intent listed under its creator keeps intents and indexes exact |
| NearBridge.SettleKeepsInvariant | silence-near-contracts/silence-bridge/src/lib.rs:267-293 | settling keeps every part of the state consistent |
| NearBridge.CreditSettlement | silence-near-contracts/silence-bridge/src/lib.rs:281-284 | executions, successes and reputation each grow by one, the volume by the settled amount; failures, stake, activity, chains, id and registration time are unchanged |
| NearBridge.SettlementPayouts | silence-near-contracts/silence-bridge/src/lib.rs:275-279 | two transfers, to the solver and to the owner, that add up to the amount, the owner's being the protocol fee |
| NearBridge.Registry.constructor | silence-near-contracts/silence-bridge/src/lib.rs:119-133 | empty tables with the given owner, stake and fee |
| NearBridge.Registry.CreateIntent | silence-near-contracts/silence-bridge/src/lib.rs:136-182 | on the guard's pass, a `Created` NEAR intent for the deposit, listed under its creator |
| NearBridge.Registry.RegisterSolver | silence-near-contracts/silence-bridge/src/lib.rs:185-210 | on the guard's pass, a new active solver appended to the solver list |
| NearBridge.Registry.MatchIntent | silence-near-contracts/silence-bridge/src/lib.rs:212-242 | on the guard's pass, the intent bound to the caller and listed under it |
| NearBridge.Registry.ExecuteIntent | silence-near-contracts/silence-bridge/src/lib.rs:244-265 | on the guard's pass, `Executed` with the hash and time; the proof overwritten even by `None` |
| NearBridge.Registry.SettleIntent | silence-near-contracts/silence-bridge/src/lib.rs:267-293 | on the guard's pass, the two payouts, `Settled`, the solver credited and the volume grown |
| NearBridge.Registry.FailIntent | silence-near-contracts/silence-bridge/src/lib.rs:295-313 | on the guard's pass, a refund to the creator, `Failed`, and 5 reputation lost, saturating |
| NearBridge.Registry.SetProtocolFee | silence-near-contracts/silence-bridge/src/lib.rs:377-381 | owner only, at most 1000 bps |
| NearBridge.Registry.DeactivateSolver | silence-near-contracts/silence-bridge/src/lib.rs:383-389 | owner only; the solver is inactive and stays on the list |
| NearPhilanthropy.Decimal | silence-near-contracts/near-philanthropy-agent/src/lib.rs:195-199 | decimal digits with no leading zero |
| NearPhilanthropy.DecimalRoundTrip | silence-near-contracts/near-philanthropy-agent/src/lib.rs:195-199 | reading the decimal rendering back gives the number |
| NearPhilanthropy.DonationIdInjective | silence-near-contracts/near-philanthropy-agent/src/lib.rs:195-199 | two donation ids are equal iff cause and timestamp are |
| NearPhilanthropy.RegisterCauseCheck | silence-near-contracts/near-philanthropy-agent/src/lib.rs:124-127 | passes iff the cause id is new |
| NearPhilanthropy.VerifyCauseCheck | silence-near-contracts/near-philanthropy-agent/src/lib.rs:152-171 | passes iff the caller is the owner or a verifier and the cause exists; the caller fails first |
| NearPhilanthropy.DonateCheck | silence-near-contracts/near-philanthropy-agent/src/lib.rs:184-189 | passes iff a deposit is attached and the cause exists; no deposit fails first |
| NearPhilanthropy.OwnerCheck | silence-near-contracts/near-philanthropy-agent/src/lib.rs:391-396 | passes iff the caller is the owner |
| NearPhilanthropy.UpdatedRequest | silence-near-contracts/near-philanthropy-agent/src/lib.rs:289-316 | the status replaced, each hash replaced only when given |
| NearPhilanthropy.UpdateKeepsHashesAndRepeats | silence-near-contracts/near-philanthropy-agent/src/lib.rs:289-316 | a recorded hash is never erased, and repeating an update changes nothing |
| NearPhilanthropy.CompletedCanReturnToPending | silence-near-contracts/near-philanthropy-agent/src/lib.rs:289-316 | a completed request can be moved back to `Pending` |
| NearPhilanthropy.WithVerifier | silence-near-contracts/near-philanthropy-agent/src/lib.rs:390-400 | the list gains the verifier, once, after the existing ones |
| NearPhilanthropy.WithoutVerifier | silence-near-contracts/near-philanthropy-agent/src/lib.rs:403-411 | the list loses every occurrence of the verifier and nothing else |
| NearPhilanthropy.RemoveUndoesAdd | silence-near-contracts/near-philanthropy-agent/src/lib.rs:390-411 | removing a verifier just added restores the list |
| NearPhilanthropy.SumIgnoresUnlisted | silence-near-contracts/near-philanthropy-agent/src/lib.rs:223 | a cause not listed does not count in the grand total |
| NearPhilanthropy.SumUpdate | silence-near-contracts/near-philanthropy-agent/src/lib.rs:214-223 | changing one cause's total changes the grand total by the difference |
| NearPhilanthropy.RegisterKeepsInvariant | silence-near-contracts/near-philanthropy-agent/src/lib.rs:115-149 | a fresh cause with nothing donated keeps the causes listed and the grand total |
| NearPhilanthropy.SameTotalKeepsInvariant | silence-near-contracts/near-philanthropy-agent/src/lib.rs:152-171 | verifying a cause keeps every part of the state |
| NearPhilanthropy.DonateKeepsTotals | silence-near-contracts/near-philanthropy-agent/src/lib.rs:214-223 | a donation grows its cause's total and the grand total alike |
| NearPhilanthropy.DonateKeepsCauseIndex | silence-near-contracts/near-philanthropy-agent/src/lib.rs:220-238 | storing a donation and listing it under its cause keeps the cause lists exact |
| NearPhilanthropy.DonateKeepsDonorIndex | silence-near-contracts/near-philanthropy-agent/src/lib.rs:226-232 | listing a donation under its donor keeps every stored donation on its donor's list |
| NearPhilanthropy.Agent.constructor | silence-near-contracts/near-philanthropy-agent/src/lib.rs:101-112 | empty tables, no verifiers |
| NearPhilanthropy.Agent.RegisterCause | silence-near-contracts/near-philanthropy-agent/src/lib.rs:115-149 | on the guard's pass, an unverified cause with nothing donated, appended to the key list |
| NearPhilanthropy.Agent.VerifyCause | silence-near-contracts/near-philanthropy-agent/src/lib.rs:152-171 | on the guard's pass, the cause is verified with the score |
| NearPhilanthropy.Agent.Donate | silence-near-contracts/near-philanthropy-agent/src/lib.rs:175-248 | on the guard's pass, the deposit goes to the recipient and both totals grow by it; the record is stored under cause and block |
| NearPhilanthropy.Agent.CreditCause | silence-near-contracts/near-philanthropy-agent/src/lib.rs:191-223 | the cause side of a donation: the payout and the two totals |
| NearPhilanthropy.Agent.StoreDonation | silence-near-contracts/near-philanthropy-agent/src/lib.rs:220-238 | the record side of a donation: stored and listed under donor and cause |
| NearPhilanthropy.Agent.CreateBridgeRequest | silence-near-contracts/near-philanthropy-agent/src/lib.rs:251-286 | a new id gives a `Pending` request with no hashes; an existing id fails |
| NearPhilanthropy.Agent.UpdateBridgeStatus | silence-near-contracts/near-philanthropy-agent/src/lib.rs:289-316 | a stored request is updated as `UpdatedRequest` says; a missing one fails |
| NearPhilanthropy.Agent.AllCauses | silence-near-contracts/near-philanthropy-agent/src/lib.rs:326-337 | at most `limit` causes, those at the key-list positions of the window, in order |
| NearPhilanthropy.Agent.VerifiedCauses | silence-near-contracts/near-philanthropy-agent/src/lib.rs:340-346 | at most `limit` verified causes from a window twice as wide, all of them when there are few enough |
| NearPhilanthropy.Agent.AddVerifier | silence-near-contracts/near-philanthropy-agent/src/lib.rs:390-400 | owner only; the list becomes `WithVerifier` |
| NearPhilanthropy.Agent.RemoveVerifier | silence-near-contracts/near-philanthropy-agent/src/lib.rs:403-411 | owner only; the list becomes `WithoutVerifier` |
| NearModelRegistry.OwnerCheck | silence-near-contracts/near-ai-model-registry/src/lib.rs:243-249 | passes iff the caller is the owner |
| NearModelRegistry.UpdateModelCheck | silence-near-contracts/near-ai-model-registry/src/lib.rs:126-128 | passes iff the caller is the owner and the model exists; the caller fails first |
| NearModelRegistry.InferenceRequestCheck | silence-near-contracts/near-ai-model-registry/src/lib.rs:160-166 | passes iff the model exists, is active, and attestation is requested when the model requires it, in that order |
| NearModelRegistry.UpdatedModel | silence-near-contracts/near-ai-model-registry/src/lib.rs:126-147 | each given field replaced, the others kept, the update time stamped |
| NearModelRegistry.UpdateModelTouchesOnlyGivenFields | silence-near-contracts/near-ai-model-registry/src/lib.rs:126-147 | an empty update only stamps the time, and an update applied twice equals one |
| NearModelRegistry.ResultStatus | silence-near-contracts/near-ai-model-registry/src/lib.rs:194-211 | `Completed` iff the result is verified, otherwise `Failed` |
| NearModelRegistry.VerifyAttestation | silence-near-contracts/near-ai-model-registry/src/lib.rs:235-241 | accepted iff the enclave id and the proof are nonempty and the timestamp nonzero |
| NearModelRegistry.VerifyAttestationIgnoresKeyAndQuote | silence-near-contracts/near-ai-model-registry/src/lib.rs:235-241 | the public key and the quote never affect the verdict |
| NearModelRegistry.StoreResultKeepsStatus | silence-near-contracts/near-ai-model-registry/src/lib.rs:194-211 | filing a result keeps every request's status in step with its result |
| NearModelRegistry.Registry.constructor | silence-near-contracts/near-ai-model-registry/src/lib.rs:72-80 | empty tables with the given owner |
| NearModelRegistry.Registry.RegisterModel | silence-near-contracts/near-ai-model-registry/src/lib.rs:83-114 | owner only; an active model stored and its id recorded, overwriting any existing one |
| NearModelRegistry.Registry.UpdateModel | silence-near-contracts/near-ai-model-registry/src/lib.rs:117-148 | on the guard's pass, the model becomes `UpdatedModel` |
| NearModelRegistry.Registry.CreateInferenceRequest | silence-near-contracts/near-ai-model-registry/src/lib.rs:151-183 | on the guard's pass, a `Pending` request for the caller, replacing any under the id |
| NearModelRegistry.Registry.StoreInferenceResult | silence-near-contracts/near-ai-model-registry/src/lib.rs:186-212 | owner only; the result stored, and a request under the id set to the result's status |
| NearInference.BatchCheck | silence-near-contracts/near-ai-inference/src/lib.rs:71-72 | passes iff there are 1 to 100 prompts; no prompts fails first |
| NearInference.StreamCheck | silence-near-contracts/near-ai-inference/src/lib.rs:101 | passes iff the chunk size is 1 to 1000 |
| NearInference.Bumped | silence-near-contracts/near-ai-inference/src/lib.rs:131-150 | one more inference, counted as a success or a failure, on the user's record or a zero one |
| NearInference.BumpKeepsBalance | silence-near-contracts/near-ai-inference/src/lib.rs:131-150 | successes plus failures stay equal to the count, and cost and latency stay zero |
| NearInference.BumpSuccessKeepsOnlySuccesses | silence-near-contracts/near-ai-inference/src/lib.rs:86 | counting successes only never records a failure |
| NearInference.StoreMetricsKeepsStored | silence-near-contracts/near-ai-inference/src/lib.rs:131-150 | writing a well-formed record keeps the stored tables as guarded |
| NearInference.Service.constructor | silence-near-contracts/near-ai-inference/src/lib.rs:53-61 | empty tables |
| NearInference.Service.CreateBatchInference | silence-near-contracts/near-ai-inference/src/lib.rs:64-90 | on the guard's pass, the batch stored under its id and one success counted, whatever the prompt count |
| NearInference.Service.CreateStreamingInference | silence-near-contracts/near-ai-inference/src/lib.rs:93-113 | on the guard's pass, the configuration stored under its id |
| NearInference.Service.UpdateMetrics | silence-near-contracts/near-ai-inference/src/lib.rs:131-150 | the user's record becomes `Bumped` |

## Left out

- Ids are abstract: NEAR account names and string ids become abstract types with
  equality, and Solana keys become naturals. No handler inspects an id beyond
  comparing it. The one exception is the donation id, `cause_timestamp`:
  `DonationIdInjective` proves that this id is equal exactly when the (cause,
  timestamp) pair is, so donations are keyed by that pair.
- Plain `+=` counters are unbounded naturals: volumes, totals, counts and the NEAR
  reputation. Their `u64`/`u128` overflow panics are not modelled. Checked, saturating
  and truncating operations are modelled.
- The NEAR views compute `from_index + limit` and `limit * 2` as `u64`; overflow of
  either is not modelled.
- Events and logs (`emit!`, `env::log_str`) are not modelled, nor the other `get_*`
  views: the single-record lookups, `get_intents_by_creator`, `get_donations_by_donor`,
  `get_donations_by_cause`, `get_all_models` and the `get_stats` summaries. `get_active_solvers`, `find_solvers_for_chains`,
  `get_all_causes` and `get_verified_causes` are modelled.
- The Arcium queueing and callback handlers and the computation-definition
  initialisers are left out. They only forward arguments to the circuits and store
  their outputs. The circuits themselves are modelled; their encryption (`Enc`,
  `Shared`) is treated as identity.
- SolanaBridge.Bridge.SettleIntent / SolanaBridge.Bridge.FailIntent: the model debits
  the intent vault directly, as the handlers write (`try_borrow_mut_lamports` at
  `programs/project_silence/src/lib.rs:755`, `:759` and `:794`). On chain that vault is
  a bare PDA owned by the system program (funded by a system transfer at `:627-634`,
  declared at `:1223-1229`), and Solana lets only an account's owner program debit it,
  so both handlers would abort there and the escrow could not leave the vault.
  Account ownership is not modelled: `SettleSucceedsWhenExecuted` and the payout
  properties hold of the model, not of the deployed program.
- Account rent, PDA derivation and bump seeds are left out. Borsh and JSON
  serialization are left out too.
- NEAR promises are appended to a `payouts` log. Their asynchronous execution and
  failure are out of scope.
- The NEAR `create_inference_request` and `create_batch_inference` return an empty
  promise; that value is not modelled.
- The NEAR bridge declares a `matches` map (`silence-bridge/src/lib.rs:106`, created
  empty at `:124`) that no handler writes, and `match_intent` ignores its
  `_proposed_rate` and `_estimated_time` arguments (`:215-216`). The model drops both
  arguments and the empty map likewise.
- NEAR `create_intent` computes `now + ttl` in `u64`; overflow is not modelled.
- NearBridge.Registry.SettleIntent: requires `protocol_fee_bps <= 10000` and
  `amount * fee < 2^128`. `new` stores any fee, and the `u128` product and the
  subtraction would otherwise panic. The model excludes those inputs rather than
  modelling the panic.
- NearBridge.Registry.constructor: the fee is stored unbounded, as in `new`. Only
  `set_protocol_fee` enforces the 1000 bps ceiling, so `Valid()` does not include it.
- SolanaBridge.Bridge.constructor: requires the 1000 bps ceiling. The handler that
  creates the configuration, `InitializeBridge`, checks it.
- NearModelRegistry.Registry.StoreInferenceResult: trusts the `verified` flag it is
  given and does not call `verify_attestation`, as in the source.
- NearModelRegistry.Registry.RegisterModel: re-registering an id overwrites the model,
  including `attestation_required`, under requests already filed.
- NearPhilanthropy.Agent.Donate: two donations to one cause in one block share an id.
  The second replaces the first record, so a donor's list can name a donation by
  another donor. `DonorIndexCovers` states only what survives this.
- Circuits.VerifyIntentAmounts: requires `source * rate < 2^128` and
  `source * fee < 2^128`. The circuit's `u128` products would otherwise wrap or abort;
  that behaviour is not modelled.
- Circuits.ComputeSettlement: requires `total * fee_bps < 2^128` and a fee no larger
  than the total. Above 10000 bps the `u128` subtraction `total - fee`
  (`encrypted-ixs/src/lib.rs:132-133`) underflows; that is not modelled.
  `ComputeSettlementDefined` shows every rate up to 10000 bps meets the second bound.
- SolanaBridge.Bridge.CreateIntent: computes `now + ttl_seconds` as an unbounded
  integer. The source's `i64` addition (`programs/project_silence/src/lib.rs:652`) can
  overflow for a huge `ttl_seconds`; that overflow is not modelled.
- Circuits.CalculateReputation: requires that the circuit's `u32` and `u128`
  arithmetic does not overflow and that a nonzero count stays nonzero after
  truncation. The wrapped results are not modelled.
