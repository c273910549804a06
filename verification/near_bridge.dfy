/** The intent bridge of the NEAR contract: the same lifecycle as on Solana,
    kept in keyed tables with a list of every registered solver and, per
    account, the list of intents it created and the list it matched. A panic
    (`assert!`, `expect`) aborts the call and rolls back every change; it is
    modelled as an `Err` with no state change. Transfers out of the contract
    are promises that run after the call commits: each is appended to a
    payout log. Timestamps are nanoseconds. */
module NearBridge {
  import opened Base
  import Fees

  /** NEAR account names and the caller-chosen intent ids are strings the
      contract only stores and compares, so the model keeps them abstract. */
  type AccountId(==, !new)
  type IntentId(==, !new)

  datatype Intent = Intent(
    intentId: IntentId,
    creator: AccountId,
    sourceChain: Chain,
    destinationChain: Chain,
    sourceAmount: nat,
    destinationAmount: nat,
    sourceToken: string,
    destinationToken: string,
    recipient: string,
    isShielded: bool,
    status: IntentStatus,
    solver: Option<AccountId>,
    createdAt: nat,
    expiresAt: nat,
    executedAt: Option<nat>,
    sourceTxHash: Option<string>,
    destinationTxHash: Option<string>,
    privacyProof: Option<string>)

  datatype Solver = Solver(
    solverId: AccountId,
    supportedChains: seq<Chain>,
    stake: nat,
    reputationScore: nat,
    totalIntentsExecuted: nat,
    successfulIntents: nat,
    failedIntents: nat,
    totalVolume: nat,
    isActive: bool,
    registeredAt: nat)

  /** A `Promise::transfer` the call scheduled. */
  datatype Payout = Payout(receiver: AccountId, amount: nat)

  /** The panic messages of the contract. */
  datatype Error =
    | MustAttachDeposit
    | IntentAlreadyExists
    | InsufficientStake
    | SolverAlreadyRegistered
    | NoSupportedChains
    | IntentNotFound
    | SolverNotFound
    | IntentAlreadyMatched
    | SolverNotActive
    | IntentExpired
    | ChainsNotSupported
    | NotMatchedSolver
    | InvalidStatus
    | NotExecuted
    | NoSolver
    | OnlyOwner
    | FeeTooHigh

  const NANOS_PER_SECOND: nat := 1_000_000_000
  const INITIAL_REPUTATION: nat := 100
  const FAILURE_PENALTY: nat := 5

  // ---------------------------------------------------------------------------
  // The checks of each call, in the order the contract makes them

  function CreateIntentCheck(deposit: nat, intentExists: bool): (r: Outcome<Error>)
    ensures r == Pass <==> deposit > 0 && !intentExists
    ensures deposit == 0 ==> r == Fail(MustAttachDeposit)
    ensures deposit > 0 && intentExists ==> r == Fail(IntentAlreadyExists)
  {
    if deposit == 0 then Fail(MustAttachDeposit)
    else if intentExists then Fail(IntentAlreadyExists)
    else Pass
  }

  function RegisterSolverCheck(stake: nat, minSolverStake: nat, registered: bool, chains: seq<Chain>): (r: Outcome<Error>)
    ensures r == Pass <==> stake >= minSolverStake && !registered && |chains| > 0
    ensures stake < minSolverStake ==> r == Fail(InsufficientStake)
    ensures stake >= minSolverStake && registered ==> r == Fail(SolverAlreadyRegistered)
    ensures stake >= minSolverStake && !registered && |chains| == 0 ==> r == Fail(NoSupportedChains)
  {
    if stake < minSolverStake then Fail(InsufficientStake)
    else if registered then Fail(SolverAlreadyRegistered)
    else if chains == [] then Fail(NoSupportedChains)
    else Pass
  }

  /** `solver` is the caller's solver record, if the caller registered. */
  function MatchCheck(intent: Option<Intent>, solver: Option<Solver>, now: nat): (r: Outcome<Error>)
    ensures r == Pass <==>
      && intent.Some? && solver.Some?
      && intent.value.status == Created
      && solver.value.isActive
      && now < intent.value.expiresAt
      && intent.value.sourceChain in solver.value.supportedChains
      && intent.value.destinationChain in solver.value.supportedChains
    ensures intent.None? ==> r == Fail(IntentNotFound)
    ensures intent.Some? && solver.None? ==> r == Fail(SolverNotFound)
    ensures intent.Some? && solver.Some? ==>
      var i, s := intent.value, solver.value;
      && (i.status != Created ==> r == Fail(IntentAlreadyMatched))
      && (i.status == Created && !s.isActive ==> r == Fail(SolverNotActive))
      && (i.status == Created && s.isActive && now >= i.expiresAt ==> r == Fail(IntentExpired))
      && (i.status == Created && s.isActive && now < i.expiresAt
          && (i.sourceChain !in s.supportedChains || i.destinationChain !in s.supportedChains)
          ==> r == Fail(ChainsNotSupported))
  {
    if intent.None? then Fail(IntentNotFound)
    else if solver.None? then Fail(SolverNotFound)
    else if intent.value.status != Created then Fail(IntentAlreadyMatched)
    else if !solver.value.isActive then Fail(SolverNotActive)
    else if now >= intent.value.expiresAt then Fail(IntentExpired)
    else if !(intent.value.sourceChain in solver.value.supportedChains
              && intent.value.destinationChain in solver.value.supportedChains) then Fail(ChainsNotSupported)
    else Pass
  }

  /** Unlike the Solana program, the source chain is checked too: a solver
      listing only the destination chain cannot match. */
  lemma MatchNeedsSourceChain(intent: Intent, solver: Solver, now: nat)
    requires intent.status == Created && solver.isActive && now < intent.expiresAt
    requires intent.sourceChain == Near && intent.destinationChain == Zcash
    requires solver.supportedChains == [Zcash]
    ensures MatchCheck(Some(intent), Some(solver), now) == Fail(ChainsNotSupported)
  {
  }

  function ExecuteCheck(intent: Option<Intent>, caller: AccountId): (r: Outcome<Error>)
    ensures r == Pass <==> intent.Some? && intent.value.solver == Some(caller) && intent.value.status == Matched
    ensures intent.None? ==> r == Fail(IntentNotFound)
    ensures intent.Some? && intent.value.solver != Some(caller) ==> r == Fail(NotMatchedSolver)
    ensures intent.Some? && intent.value.solver == Some(caller) && intent.value.status != Matched
      ==> r == Fail(InvalidStatus)
  {
    if intent.None? then Fail(IntentNotFound)
    else if intent.value.solver != Some(caller) then Fail(NotMatchedSolver)
    else if intent.value.status != Matched then Fail(InvalidStatus)
    else Pass
  }

  /** `boundSolverRegistered`: the intent's solver has a solver record. */
  function SettleCheck(intent: Option<Intent>, boundSolverRegistered: bool): (r: Outcome<Error>)
    ensures r == Pass <==>
      intent.Some? && intent.value.status == Executed && intent.value.solver.Some? && boundSolverRegistered
    ensures intent.None? ==> r == Fail(IntentNotFound)
    ensures intent.Some? && intent.value.status != Executed ==> r == Fail(NotExecuted)
    ensures intent.Some? && intent.value.status == Executed && intent.value.solver.None? ==> r == Fail(NoSolver)
    ensures intent.Some? && intent.value.status == Executed && intent.value.solver.Some? && !boundSolverRegistered
      ==> r == Fail(SolverNotFound)
  {
    if intent.None? then Fail(IntentNotFound)
    else if intent.value.status != Executed then Fail(NotExecuted)
    else if intent.value.solver.None? then Fail(NoSolver)
    else if !boundSolverRegistered then Fail(SolverNotFound)
    else Pass
  }

  /** The status is never consulted. */
  function FailCheck(intent: Option<Intent>, caller: AccountId, callerRegistered: bool): (r: Outcome<Error>)
    ensures r == Pass <==> intent.Some? && intent.value.solver == Some(caller) && callerRegistered
    ensures intent.None? ==> r == Fail(IntentNotFound)
    ensures intent.Some? && intent.value.solver != Some(caller) ==> r == Fail(NotMatchedSolver)
    ensures intent.Some? && intent.value.solver == Some(caller) && !callerRegistered ==> r == Fail(SolverNotFound)
  {
    if intent.None? then Fail(IntentNotFound)
    else if intent.value.solver != Some(caller) then Fail(NotMatchedSolver)
    else if !callerRegistered then Fail(SolverNotFound)
    else Pass
  }

  /** `fail_intent` accepts a settled intent: its solver can have the creator
      refunded after the solver was already paid. */
  lemma FailCallableWhenSettled(intent: Intent, caller: AccountId)
    requires intent.status == Settled && intent.solver == Some(caller)
    ensures FailCheck(Some(intent), caller, true) == Pass
  {
  }

  function SetFeeCheck(caller: AccountId, owner: AccountId, feeBps: nat): (r: Outcome<Error>)
    ensures r == Pass <==> caller == owner && feeBps <= Fees.MAX_PROTOCOL_FEE_BPS
    ensures caller != owner ==> r == Fail(OnlyOwner)
    ensures caller == owner && feeBps > Fees.MAX_PROTOCOL_FEE_BPS ==> r == Fail(FeeTooHigh)
  {
    if caller != owner then Fail(OnlyOwner)
    else if feeBps > Fees.MAX_PROTOCOL_FEE_BPS then Fail(FeeTooHigh)
    else Pass
  }

  function DeactivateCheck(caller: AccountId, owner: AccountId, solverExists: bool): (r: Outcome<Error>)
    ensures r == Pass <==> caller == owner && solverExists
    ensures caller != owner ==> r == Fail(OnlyOwner)
    ensures caller == owner && !solverExists ==> r == Fail(SolverNotFound)
  {
    if caller != owner then Fail(OnlyOwner)
    else if !solverExists then Fail(SolverNotFound)
    else Pass
  }

  // ---------------------------------------------------------------------------
  // Views

  predicate ServesChains(s: Solver, sourceChain: Chain, destinationChain: Chain) {
    s.isActive && sourceChain in s.supportedChains && destinationChain in s.supportedChains
  }

  /** `find_solvers_for_chains`: exactly the active solvers listing both
      chains, taken in the order of the solver list. */
  function FindSolversForChains(
    activeSolvers: seq<AccountId>, solvers: map<AccountId, Solver>, sourceChain: Chain, destinationChain: Chain)
    : (r: seq<Solver>)
    ensures |r| <= |activeSolvers|
    ensures forall s :: s in r <==>
      ServesChains(s, sourceChain, destinationChain)
      && exists i :: 0 <= i < |activeSolvers| && activeSolvers[i] in solvers && solvers[activeSolvers[i]] == s
  {
    Filter(LookupAll(activeSolvers, solvers), (s: Solver) => ServesChains(s, sourceChain, destinationChain))
  }

  /** The search walks the solver list front to back: a solver appended to
      the list lands, if it serves both chains, after every earlier match. */
  lemma FindSolversAppendOne(
    activeSolvers: seq<AccountId>, solvers: map<AccountId, Solver>, a: AccountId,
    sourceChain: Chain, destinationChain: Chain)
    requires a in solvers
    ensures FindSolversForChains(activeSolvers + [a], solvers, sourceChain, destinationChain)
         == FindSolversForChains(activeSolvers, solvers, sourceChain, destinationChain)
            + (if ServesChains(solvers[a], sourceChain, destinationChain) then [solvers[a]] else [])
  {
    LookupAllAppendOne(activeSolvers, solvers, a);
    FilterAppendOne(LookupAll(activeSolvers, solvers), solvers[a],
                    (s: Solver) => ServesChains(s, sourceChain, destinationChain));
  }

  /** Every solver `find_solvers_for_chains` returns passes the chain check
      of `match_intent` for an intent between the two chains. */
  lemma FoundSolversCanMatch(
    activeSolvers: seq<AccountId>, solvers: map<AccountId, Solver>, intent: Intent, now: nat, s: Solver)
    requires s in FindSolversForChains(activeSolvers, solvers, intent.sourceChain, intent.destinationChain)
    requires intent.status == Created && now < intent.expiresAt
    ensures MatchCheck(Some(intent), Some(s), now) == Pass
  {
  }

  /** `get_active_solvers`: the active solvers among list positions
      `[from, min(from + limit, len))`, in list order. */
  function ActiveSolversPage(activeSolvers: seq<AccountId>, solvers: map<AccountId, Solver>, fromIndex: nat, limit: nat)
    : (r: seq<Solver>)
    ensures |r| <= limit
    ensures forall s :: s in r <==>
      s.isActive
      && exists i :: fromIndex <= i < |activeSolvers| && i < fromIndex + limit
                     && activeSolvers[i] in solvers && solvers[activeSolvers[i]] == s
  {
    Filter(LookupAll(Window(activeSolvers, fromIndex, limit), solvers), (s: Solver) => s.isActive)
  }

  // ---------------------------------------------------------------------------
  // The contract state

  /** Every intent is stored under its own id, was created on NEAR, is bound
      to a registered solver exactly when it has left `Created`, and only
      the five statuses the contract writes occur. */
  ghost predicate IntentOk(id: IntentId, i: Intent, registered: set<AccountId>) {
    && i.intentId == id
    && i.sourceChain == Near
    && i.sourceAmount > 0
    && (i.status == Created <==> i.solver.None?)
    && i.status in {Created, Matched, Executed, Settled, Failed}
    && (i.solver.Some? ==> i.solver.value in registered)
  }

  ghost predicate IntentsConsistent(intents: map<IntentId, Intent>, registered: set<AccountId>) {
    forall id :: id in intents ==> IntentOk(id, intents[id], registered)
  }

  lemma UpdateKeepsConsistency(intents: map<IntentId, Intent>, registered: set<AccountId>, id: IntentId, i: Intent)
    requires IntentsConsistent(intents, registered) && IntentOk(id, i, registered)
    ensures IntentsConsistent(intents[id := i], registered)
  {
  }

  /** Replacing a solver record by one for the same account that keeps its
      chains and its two execution counters equal keeps the solver table,
      the solver list and the intents consistent. */
  lemma SolverUpdateKeepsInvariant(
    solvers: map<AccountId, Solver>, activeSolvers: seq<AccountId>, intents: map<IntentId, Intent>,
    k: AccountId, s: Solver)
    requires SolversConsistent(solvers) && ListsEverySolverOnce(activeSolvers, solvers)
    requires IntentsConsistent(intents, solvers.Keys)
    requires k in solvers && s.solverId == k && |s.supportedChains| > 0
    requires s.totalIntentsExecuted == s.successfulIntents
    ensures SolversConsistent(solvers[k := s]) && ListsEverySolverOnce(activeSolvers, solvers[k := s])
    ensures IntentsConsistent(intents, solvers[k := s].Keys)
  {
    assert solvers[k := s].Keys == solvers.Keys;
  }

  /** Every solver is stored under its own account, lists a chain, and has
      as many executions as successes (only settlement counts either). */
  ghost predicate SolversConsistent(solvers: map<AccountId, Solver>) {
    forall k :: k in solvers ==>
      && solvers[k].solverId == k
      && |solvers[k].supportedChains| > 0
      && solvers[k].totalIntentsExecuted == solvers[k].successfulIntents
  }

  /** The solver list holds every registered solver exactly once,
      deactivated ones included. */
  ghost predicate ListsEverySolverOnce(activeSolvers: seq<AccountId>, solvers: map<AccountId, Solver>) {
    && (forall i :: 0 <= i < |activeSolvers| ==> activeSolvers[i] in solvers)
    && (forall k :: k in solvers ==> k in activeSolvers)
    && (forall i, j :: 0 <= i < j < |activeSolvers| ==> activeSolvers[i] != activeSolvers[j])
  }

  /** Each creator's list holds ids of intents that account created, and
      every intent is on its creator's list. */
  ghost predicate CreatorIndexExact(intents: map<IntentId, Intent>, byCreator: map<AccountId, seq<IntentId>>) {
    && (forall c, id :: c in byCreator && id in byCreator[c] ==> id in intents && intents[id].creator == c)
    && (forall id :: id in intents ==> intents[id].creator in byCreator && id in byCreator[intents[id].creator])
  }

  /** Each solver's list holds ids of intents bound to that solver, and every
      bound intent is on its solver's list. */
  ghost predicate SolverIndexExact(intents: map<IntentId, Intent>, bySolver: map<AccountId, seq<IntentId>>) {
    && (forall s, id :: s in bySolver && id in bySolver[s] ==> id in intents && intents[id].solver == Some(s))
    && (forall id :: id in intents && intents[id].solver.Some? ==>
          intents[id].solver.value in bySolver && id in bySolver[intents[id].solver.value])
  }

  /** Replacing an intent by a record with the same creator and the same
      solver keeps both indexes exact. */
  lemma SameBindingKeepsIndexes(
    intents: map<IntentId, Intent>, byCreator: map<AccountId, seq<IntentId>>, bySolver: map<AccountId, seq<IntentId>>,
    id: IntentId, i: Intent)
    requires CreatorIndexExact(intents, byCreator) && SolverIndexExact(intents, bySolver)
    requires id in intents && i.creator == intents[id].creator && i.solver == intents[id].solver
    ensures CreatorIndexExact(intents[id := i], byCreator) && SolverIndexExact(intents[id := i], bySolver)
  {
  }

  /** Binding an unbound intent to solver `k` and appending its id to `k`'s
      list keeps both indexes exact. */
  lemma BindKeepsIndexes(
    intents: map<IntentId, Intent>, byCreator: map<AccountId, seq<IntentId>>, bySolver: map<AccountId, seq<IntentId>>,
    id: IntentId, i: Intent, k: AccountId)
    requires CreatorIndexExact(intents, byCreator) && SolverIndexExact(intents, bySolver)
    requires id in intents && intents[id].solver.None?
    requires i.creator == intents[id].creator && i.solver == Some(k)
    ensures CreatorIndexExact(intents[id := i], byCreator)
    ensures SolverIndexExact(intents[id := i], bySolver[k := IndexOf(bySolver, k) + [id]])
  {
    var intents1 := intents[id := i];
    var bySolver1 := bySolver[k := IndexOf(bySolver, k) + [id]];
    forall s, x | s in bySolver1 && x in bySolver1[s]
      ensures x in intents1 && intents1[x].solver == Some(s)
    {
      if s == k && x !in IndexOf(bySolver, k) {
        assert x == id;
      }
    }
  }

  /** Adding a fresh, unbound intent and appending its id to its creator's
      list keeps the intents consistent and both indexes exact. */
  lemma CreateKeepsInvariant(
    intents: map<IntentId, Intent>, registered: set<AccountId>,
    byCreator: map<AccountId, seq<IntentId>>, bySolver: map<AccountId, seq<IntentId>>,
    id: IntentId, i: Intent)
    requires IntentsConsistent(intents, registered)
    requires CreatorIndexExact(intents, byCreator) && SolverIndexExact(intents, bySolver)
    requires id !in intents && IntentOk(id, i, registered) && i.solver.None?
    ensures IntentsConsistent(intents[id := i], registered)
    ensures CreatorIndexExact(intents[id := i], byCreator[i.creator := IndexOf(byCreator, i.creator) + [id]])
    ensures SolverIndexExact(intents[id := i], bySolver)
  {
    var intents1 := intents[id := i];
    var byCreator1 := byCreator[i.creator := IndexOf(byCreator, i.creator) + [id]];
    forall c, x | c in byCreator1 && x in byCreator1[c]
      ensures x in intents1 && intents1[x].creator == c
    {
      if c == i.creator && x !in IndexOf(byCreator, c) {
        assert x == id;
      }
    }
  }

  /** Settling an executed intent (its record moves to `Settled`, its
      solver's counters grow together) keeps every part of the state
      consistent. */
  lemma SettleKeepsInvariant(
    intents: map<IntentId, Intent>, solvers: map<AccountId, Solver>, activeSolvers: seq<AccountId>,
    byCreator: map<AccountId, seq<IntentId>>, bySolver: map<AccountId, seq<IntentId>>,
    id: IntentId, i: Intent, k: AccountId, s: Solver)
    requires IntentsConsistent(intents, solvers.Keys) && SolversConsistent(solvers)
    requires ListsEverySolverOnce(activeSolvers, solvers)
    requires CreatorIndexExact(intents, byCreator) && SolverIndexExact(intents, bySolver)
    requires id in intents && intents[id].status == Executed && intents[id].solver == Some(k)
    requires i == intents[id].(status := Settled)
    requires k in solvers && s.solverId == k && s.supportedChains == solvers[k].supportedChains
    requires s.totalIntentsExecuted == s.successfulIntents
    ensures IntentsConsistent(intents[id := i], solvers[k := s].Keys) && SolversConsistent(solvers[k := s])
    ensures ListsEverySolverOnce(activeSolvers, solvers[k := s])
    ensures CreatorIndexExact(intents[id := i], byCreator) && SolverIndexExact(intents[id := i], bySolver)
  {
    SolverUpdateKeepsInvariant(solvers, activeSolvers, intents, k, s);
    UpdateKeepsConsistency(intents, solvers[k := s].Keys, id, i);
    SameBindingKeepsIndexes(intents, byCreator, bySolver, id, i);
  }

  /** The solver an intent is bound to. */
  function BoundSolver(i: Intent): AccountId
    requires i.solver.Some?
  {
    i.solver.value
  }

  /** The solver record after one successful settlement of `amount`: one more
      execution and one more success, the volume grown by the amount and the
      reputation by one. */
  function CreditSettlement(s: Solver, amount: nat): (s': Solver)
    ensures s'.solverId == s.solverId && s'.supportedChains == s.supportedChains
    ensures s'.totalIntentsExecuted == s.totalIntentsExecuted + 1 && s'.successfulIntents == s.successfulIntents + 1
    ensures s'.totalVolume == s.totalVolume + amount && s'.reputationScore == s.reputationScore + 1
    ensures s'.failedIntents == s.failedIntents && s'.isActive == s.isActive && s'.stake == s.stake
    ensures s'.registeredAt == s.registeredAt
  {
    s.(totalIntentsExecuted := s.totalIntentsExecuted + 1,
       successfulIntents := s.successfulIntents + 1,
       totalVolume := s.totalVolume + amount,
       reputationScore := s.reputationScore + 1)
  }

  /** The two promises of `settle_intent`: the reward to the solver and the
      protocol fee to the owner. Up to a 100% fee they pay out exactly the
      settled amount. */
  function SettlementPayouts(solver: AccountId, owner: AccountId, amount: nat, feeBps: nat): (ps: seq<Payout>)
    requires feeBps <= Fees.BPS_DENOMINATOR
    ensures |ps| == 2 && ps[0].receiver == solver && ps[1].receiver == owner
    ensures ps[0].amount + ps[1].amount == amount
    ensures ps[1].amount == Fees.ProtocolFee(amount, feeBps)
  {
    Fees.FeeWithinAmount(amount, feeBps);
    var fee := amount * feeBps / Fees.BPS_DENOMINATOR;
    [Payout(solver, amount - fee), Payout(owner, fee)]
  }

  function IndexOf(m: map<AccountId, seq<IntentId>>, k: AccountId): seq<IntentId> {
    if k in m then m[k] else []
  }

  class Registry {
    var intents: map<IntentId, Intent>
    var solvers: map<AccountId, Solver>
    var activeSolvers: seq<AccountId>
    var intentsByCreator: map<AccountId, seq<IntentId>>
    var intentsBySolver: map<AccountId, seq<IntentId>>
    var owner: AccountId
    var minSolverStake: nat
    var protocolFeeBps: nat
    var totalVolume: nat
    var payouts: seq<Payout>

    ghost predicate Valid()
      reads this
    {
      && IntentsConsistent(intents, solvers.Keys)
      && SolversConsistent(solvers)
      && ListsEverySolverOnce(activeSolvers, solvers)
      && CreatorIndexExact(intents, intentsByCreator)
      && SolverIndexExact(intents, intentsBySolver)
    }

    /** `new`: the fee is stored as given, with no upper bound. */
    constructor (owner: AccountId, minSolverStake: U128, protocolFeeBps: U32)
      ensures Valid()
      ensures this.owner == owner && this.minSolverStake == minSolverStake && this.protocolFeeBps == protocolFeeBps
      ensures intents == map[] && solvers == map[] && activeSolvers == []
      ensures intentsByCreator == map[] && intentsBySolver == map[]
      ensures totalVolume == 0 && payouts == []
    {
      this.owner := owner;
      this.minSolverStake := minSolverStake;
      this.protocolFeeBps := protocolFeeBps;
      intents := map[];
      solvers := map[];
      activeSolvers := [];
      intentsByCreator := map[];
      intentsBySolver := map[];
      totalVolume := 0;
      payouts := [];
    }

    /** `create_intent`: the attached deposit is the amount. */
    method CreateIntent(
      caller: AccountId, deposit: nat, intentId: IntentId, destinationChain: Chain, destinationAmount: nat,
      destinationToken: string, recipient: string, isShielded: bool, ttlSeconds: nat, now: nat)
      returns (r: Result<Intent, Error>)
      requires Valid()
      modifies this
      ensures Valid()
      ensures r.Ok? <==> CreateIntentCheck(deposit, intentId in old(intents)) == Pass
      ensures r.Err? ==> CreateIntentCheck(deposit, intentId in old(intents)) == Fail(r.error)
      ensures r.Ok? ==>
        && r.value == Intent(intentId, caller, Near, destinationChain, deposit, destinationAmount, "NEAR",
                             destinationToken, recipient, isShielded, Created, None, now,
                             now + ttlSeconds * NANOS_PER_SECOND, None, None, None, None)
        && intents == old(intents)[intentId := r.value]
        && intentsByCreator == old(intentsByCreator)[caller := IndexOf(old(intentsByCreator), caller) + [intentId]]
      ensures r.Err? ==> intents == old(intents) && intentsByCreator == old(intentsByCreator)
      ensures solvers == old(solvers) && activeSolvers == old(activeSolvers) && intentsBySolver == old(intentsBySolver)
      ensures owner == old(owner) && protocolFeeBps == old(protocolFeeBps) && minSolverStake == old(minSolverStake)
      ensures totalVolume == old(totalVolume) && payouts == old(payouts)
    {
      var check := CreateIntentCheck(deposit, intentId in intents);
      if check.Fail? {
        return Err(check.error);
      }
      var intent := Intent(intentId, caller, Near, destinationChain, deposit, destinationAmount, "NEAR",
                           destinationToken, recipient, isShielded, Created, None, now,
                           now + ttlSeconds * NANOS_PER_SECOND, None, None, None, None);
      CreateKeepsInvariant(intents, solvers.Keys, intentsByCreator, intentsBySolver, intentId, intent);
      intents := intents[intentId := intent];
      intentsByCreator := intentsByCreator[caller := IndexOf(intentsByCreator, caller) + [intentId]];
      r := Ok(intent);
    }

    /** `register_solver`: the attached deposit is the stake. */
    method RegisterSolver(caller: AccountId, deposit: nat, supportedChains: seq<Chain>, now: nat)
      returns (r: Outcome<Error>)
      requires Valid()
      modifies this
      ensures Valid()
      ensures r == RegisterSolverCheck(deposit, old(minSolverStake), caller in old(solvers), supportedChains)
      ensures r.Pass? ==>
        && solvers == old(solvers)[caller := Solver(caller, supportedChains, deposit, INITIAL_REPUTATION,
                                                    0, 0, 0, 0, true, now)]
        && activeSolvers == old(activeSolvers) + [caller]
      ensures r.Fail? ==> solvers == old(solvers) && activeSolvers == old(activeSolvers)
      ensures intents == old(intents) && intentsByCreator == old(intentsByCreator) && intentsBySolver == old(intentsBySolver)
      ensures owner == old(owner) && protocolFeeBps == old(protocolFeeBps) && minSolverStake == old(minSolverStake)
      ensures totalVolume == old(totalVolume) && payouts == old(payouts)
    {
      r := RegisterSolverCheck(deposit, minSolverStake, caller in solvers, supportedChains);
      if r.Pass? {
        solvers := solvers[caller := Solver(caller, supportedChains, deposit, INITIAL_REPUTATION,
                                            0, 0, 0, 0, true, now)];
        activeSolvers := activeSolvers + [caller];
      }
    }

    /** `match_intent`: the proposed rate and estimated time are ignored. */
    method MatchIntent(caller: AccountId, intentId: IntentId, now: nat) returns (r: Outcome<Error>)
      requires Valid()
      modifies this
      ensures Valid()
      ensures r == MatchCheck(Find(old(intents), intentId), Find(old(solvers), caller), now)
      ensures r.Pass? ==>
        && intents == old(intents)[intentId := old(intents)[intentId].(status := Matched, solver := Some(caller))]
        && intentsBySolver == old(intentsBySolver)[caller := IndexOf(old(intentsBySolver), caller) + [intentId]]
      ensures r.Fail? ==> intents == old(intents) && intentsBySolver == old(intentsBySolver)
      ensures solvers == old(solvers) && activeSolvers == old(activeSolvers) && intentsByCreator == old(intentsByCreator)
      ensures owner == old(owner) && protocolFeeBps == old(protocolFeeBps) && minSolverStake == old(minSolverStake)
      ensures totalVolume == old(totalVolume) && payouts == old(payouts)
    {
      r := MatchCheck(Find(intents, intentId), Find(solvers, caller), now);
      if r.Pass? {
        var i := intents[intentId];
        var i' := i.(status := Matched, solver := Some(caller));
        BindKeepsIndexes(intents, intentsByCreator, intentsBySolver, intentId, i', caller);
        UpdateKeepsConsistency(intents, solvers.Keys, intentId, i');
        intents := intents[intentId := i'];
        intentsBySolver := intentsBySolver[caller := IndexOf(intentsBySolver, caller) + [intentId]];
      }
    }

    /** `execute_intent`: the privacy proof is overwritten by the argument,
        even when the argument is `None`. */
    method ExecuteIntent(
      caller: AccountId, intentId: IntentId, destinationTxHash: string, privacyProof: Option<string>, now: nat)
      returns (r: Outcome<Error>)
      requires Valid()
      modifies this
      ensures Valid()
      ensures r == ExecuteCheck(Find(old(intents), intentId), caller)
      ensures r.Pass? ==> intents == old(intents)[intentId := old(intents)[intentId].(
        status := Executed, executedAt := Some(now), destinationTxHash := Some(destinationTxHash),
        privacyProof := privacyProof)]
      ensures r.Fail? ==> intents == old(intents)
      ensures solvers == old(solvers) && activeSolvers == old(activeSolvers)
      ensures intentsByCreator == old(intentsByCreator) && intentsBySolver == old(intentsBySolver)
      ensures owner == old(owner) && protocolFeeBps == old(protocolFeeBps) && minSolverStake == old(minSolverStake)
      ensures totalVolume == old(totalVolume) && payouts == old(payouts)
    {
      r := ExecuteCheck(Find(intents, intentId), caller);
      if r.Pass? {
        var i := intents[intentId];
        var i' := i.(status := Executed, executedAt := Some(now), destinationTxHash := Some(destinationTxHash),
                     privacyProof := privacyProof);
        SameBindingKeepsIndexes(intents, intentsByCreator, intentsBySolver, intentId, i');
        intents := intents[intentId := i'];
      }
    }

    /** `settle_intent`: anyone may call it; the reward goes to the solver and
        the fee to the owner, together exactly the escrowed amount. */
    method SettleIntent(intentId: IntentId) returns (r: Outcome<Error>)
      requires Valid()
      requires protocolFeeBps <= Fees.BPS_DENOMINATOR
      requires intentId in intents ==> intents[intentId].sourceAmount * protocolFeeBps < U128_LIMIT
      modifies this
      ensures Valid()
      ensures r == SettleCheck(Find(old(intents), intentId),
                               intentId in old(intents) && old(intents)[intentId].solver.Some?
                                 && old(intents)[intentId].solver.value in old(solvers))
      ensures r.Pass? ==> payouts == old(payouts) + SettlementPayouts(
        BoundSolver(old(intents)[intentId]), old(owner), old(intents)[intentId].sourceAmount, old(protocolFeeBps))
      ensures r.Pass? ==> intents == old(intents)[intentId := old(intents)[intentId].(status := Settled)]
      ensures r.Pass? ==> solvers == old(solvers)[BoundSolver(old(intents)[intentId]) :=
        CreditSettlement(old(solvers)[BoundSolver(old(intents)[intentId])], old(intents)[intentId].sourceAmount)]
      ensures r.Pass? ==> totalVolume == old(totalVolume) + old(intents)[intentId].sourceAmount
      ensures r.Fail? ==> intents == old(intents) && solvers == old(solvers)
      ensures r.Fail? ==> payouts == old(payouts) && totalVolume == old(totalVolume)
      ensures activeSolvers == old(activeSolvers)
      ensures intentsByCreator == old(intentsByCreator) && intentsBySolver == old(intentsBySolver)
      ensures owner == old(owner) && protocolFeeBps == old(protocolFeeBps) && minSolverStake == old(minSolverStake)
    {
      var found := Find(intents, intentId);
      r := SettleCheck(found, found.Some? && found.value.solver.Some? && found.value.solver.value in solvers);
      if r.Fail? {
        return;
      }
      var i := intents[intentId];
      var k := i.solver.value;
      var sv' := CreditSettlement(solvers[k], i.sourceAmount);
      var settled := i.(status := Settled);
      SettleKeepsInvariant(intents, solvers, activeSolvers, intentsByCreator, intentsBySolver,
                           intentId, settled, k, sv');
      payouts := payouts + SettlementPayouts(k, owner, i.sourceAmount, protocolFeeBps);
      solvers := solvers[k := sv'];
      intents := intents[intentId := settled];
      totalVolume := totalVolume + i.sourceAmount;
    }

    /** `fail_intent`: refunds the creator whatever the status. */
    method FailIntent(caller: AccountId, intentId: IntentId) returns (r: Outcome<Error>)
      requires Valid()
      modifies this
      ensures Valid()
      ensures r == FailCheck(Find(old(intents), intentId), caller, caller in old(solvers))
      ensures r.Pass? ==>
        var i := old(intents)[intentId];
        && payouts == old(payouts) + [Payout(i.creator, i.sourceAmount)]
        && intents == old(intents)[intentId := i.(status := Failed)]
        && solvers == old(solvers)[caller := old(solvers)[caller].(
             failedIntents := old(solvers)[caller].failedIntents + 1,
             reputationScore := SaturatingSub(old(solvers)[caller].reputationScore, FAILURE_PENALTY))]
      ensures r.Fail? ==> intents == old(intents) && solvers == old(solvers) && payouts == old(payouts)
      ensures activeSolvers == old(activeSolvers) && totalVolume == old(totalVolume)
      ensures intentsByCreator == old(intentsByCreator) && intentsBySolver == old(intentsBySolver)
      ensures owner == old(owner) && protocolFeeBps == old(protocolFeeBps) && minSolverStake == old(minSolverStake)
    {
      r := FailCheck(Find(intents, intentId), caller, caller in solvers);
      if r.Fail? {
        return;
      }
      var i := intents[intentId];
      payouts := payouts + [Payout(i.creator, i.sourceAmount)];
      var sv := solvers[caller];
      solvers := solvers[caller := sv.(
        failedIntents := sv.failedIntents + 1,
        reputationScore := SaturatingSub(sv.reputationScore, FAILURE_PENALTY))];
      assert solvers.Keys == old(solvers).Keys;
      SameBindingKeepsIndexes(intents, intentsByCreator, intentsBySolver, intentId, i.(status := Failed));
      UpdateKeepsConsistency(intents, solvers.Keys, intentId, i.(status := Failed));
      intents := intents[intentId := i.(status := Failed)];
    }

    /** `set_protocol_fee`: owner only, at most 10%. */
    method SetProtocolFee(caller: AccountId, feeBps: U32) returns (r: Outcome<Error>)
      requires Valid()
      modifies this
      ensures Valid()
      ensures r == SetFeeCheck(caller, old(owner), feeBps)
      ensures protocolFeeBps == if r.Pass? then feeBps else old(protocolFeeBps)
      ensures intents == old(intents) && solvers == old(solvers) && activeSolvers == old(activeSolvers)
      ensures intentsByCreator == old(intentsByCreator) && intentsBySolver == old(intentsBySolver)
      ensures owner == old(owner) && minSolverStake == old(minSolverStake)
      ensures totalVolume == old(totalVolume) && payouts == old(payouts)
    {
      r := SetFeeCheck(caller, owner, feeBps);
      if r.Pass? {
        protocolFeeBps := feeBps;
      }
    }

    /** `deactivate_solver`: owner only; the solver stays on the solver list. */
    method DeactivateSolver(caller: AccountId, solverId: AccountId) returns (r: Outcome<Error>)
      requires Valid()
      modifies this
      ensures Valid()
      ensures r == DeactivateCheck(caller, old(owner), solverId in old(solvers))
      ensures r.Pass? ==> solvers == old(solvers)[solverId := old(solvers)[solverId].(isActive := false)]
      ensures r.Fail? ==> solvers == old(solvers)
      ensures intents == old(intents) && activeSolvers == old(activeSolvers)
      ensures intentsByCreator == old(intentsByCreator) && intentsBySolver == old(intentsBySolver)
      ensures owner == old(owner) && protocolFeeBps == old(protocolFeeBps) && minSolverStake == old(minSolverStake)
      ensures totalVolume == old(totalVolume) && payouts == old(payouts)
    {
      r := DeactivateCheck(caller, owner, solverId in solvers);
      if r.Pass? {
        solvers := solvers[solverId := solvers[solverId].(isActive := false)];
        assert solvers.Keys == old(solvers).Keys;
      }
    }
  }
}
