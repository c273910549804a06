/** The intent bridge of the Solana program: solvers register with a chain
    bitmap, creators escrow lamports in a per-intent vault, a solver matches
    and executes an intent, and settlement pays the solver its reward and the
    fee vault the protocol fee out of the vault, or failure refunds the
    creator.

    Every account an instruction touches is a record in one of the class's
    maps; the lamports of every account are one balance map. Each handler
    first runs the account loader's checks (an account that must exist but
    does not, an account to be created that exists already, then the account
    constraints in declaration order) and then the handler body's checks; a
    failed check aborts the instruction with no change. */
module SolanaBridge {
  import opened Base
  import opened SolanaErrors
  import Fees
  import Ledger

  type Pubkey = nat
  type IntentId = U64

  /** A lamport-holding account: a wallet, or the vault PDA that escrows
      the funds of one intent. */
  datatype Account = Wallet(key: Pubkey) | Vault(intent: IntentId)

  datatype Intent = Intent(
    intentId: IntentId,
    creator: Pubkey,
    sourceChain: Chain,
    destinationChain: Chain,
    sourceAmount: U64,
    destinationAmountCommitment: Bytes32,
    sourceToken: Pubkey,
    destinationTokenHash: Bytes32,
    recipientHash: Bytes32,
    isShielded: bool,
    status: IntentStatus,
    solver: Option<Pubkey>,
    createdAt: int,
    expiresAt: int,
    executedAt: Option<int>,
    destinationTxHash: Bytes32,
    privacyProof: Bytes32)

  datatype Solver = Solver(
    solverId: Pubkey,
    supportedChains: bv8,
    stake: U64,
    reputationScore: U32,
    totalIntentsExecuted: nat,
    successfulIntents: nat,
    failedIntents: nat,
    totalVolume: nat,
    isActive: bool,
    registeredAt: int)

  datatype BridgeConfig = BridgeConfig(
    owner: Pubkey,
    minSolverStake: U64,
    protocolFeeBps: U16,
    totalVolume: nat,
    totalIntents: nat,
    activeSolvers: nat,
    feeVault: Pubkey)

  /** The public key `Pubkey::default()`, recorded as an intent's source token. */
  const NATIVE_SOL: Pubkey := 0

  /** The reputation a new solver starts with. */
  const INITIAL_REPUTATION: nat := 100

  /** The reputation a failed intent costs its solver. */
  const FAILURE_PENALTY: nat := 5

  // ---------------------------------------------------------------------------
  // Chain bitmap

  /** The bit of a chain in a solver's `supported_chains`. */
  function ChainBit(c: Chain): (b: bv8)
    ensures b == 1 || b == 2 || b == 4
  {
    match c
    case Solana => 1
    case Near => 2
    case Zcash => 4
  }

  /** Distinct chains have distinct bits. */
  lemma ChainBitInjective(c: Chain, d: Chain)
    ensures ChainBit(c) == ChainBit(d) <==> c == d
  {
  }

  predicate SupportsChain(mask: bv8, c: Chain) {
    mask & ChainBit(c) != 0
  }

  /** Registration accepts any nonzero bitmap, so a solver whose bitmap has
      only bits above the three chain bits is registered yet supports no
      chain at all. */
  lemma HighBitsSupportNothing(mask: bv8)
    requires mask & 7 == 0
    ensures forall c :: !SupportsChain(mask, c)
  {
    forall c ensures !SupportsChain(mask, c) {
      assert mask & ChainBit(c) == (mask & 7) & ChainBit(c);
    }
  }

  // ---------------------------------------------------------------------------
  // The checks of each handler, in the order the loader and the body run them

  function RegisterSolverCheck(
    alreadyRegistered: bool, supportedChains: bv8, callerBalance: nat, minSolverStake: nat): (r: Outcome<ErrorCode>)
    ensures r == Pass <==> !alreadyRegistered && supportedChains != 0 && callerBalance >= minSolverStake
    ensures alreadyRegistered ==> r == Fail(AccountAlreadyInUse)
    ensures !alreadyRegistered && supportedChains == 0 ==> r == Fail(NoSupportedChains)
    ensures !alreadyRegistered && supportedChains != 0 && callerBalance < minSolverStake ==> r == Fail(InsufficientStake)
  {
    if alreadyRegistered then Fail(AccountAlreadyInUse)
    else if supportedChains == 0 then Fail(NoSupportedChains)
    else if callerBalance < minSolverStake then Fail(InsufficientStake)
    else Pass
  }

  function CreateIntentCheck(intentExists: bool, sourceAmount: U64, creatorBalance: nat): (r: Outcome<ErrorCode>)
    ensures r == Pass <==> !intentExists && 0 < sourceAmount <= creatorBalance
    ensures intentExists ==> r == Fail(AccountAlreadyInUse)
    ensures !intentExists && sourceAmount == 0 ==> r == Fail(ZeroDeposit)
    ensures !intentExists && 0 < sourceAmount && creatorBalance < sourceAmount ==> r == Fail(InsufficientFunds)
  {
    if intentExists then Fail(AccountAlreadyInUse)
    else if sourceAmount == 0 then Fail(ZeroDeposit)
    else if creatorBalance < sourceAmount then Fail(InsufficientFunds)
    else Pass
  }

  /** `solver` is the solver record of the caller, if the caller registered. */
  function MatchCheck(intent: Option<Intent>, solver: Option<Solver>, now: int): (r: Outcome<ErrorCode>)
    ensures r == Pass <==>
      && intent.Some? && solver.Some?
      && intent.value.status == Created
      && solver.value.isActive
      && now < intent.value.expiresAt
      && SupportsChain(solver.value.supportedChains, intent.value.destinationChain)
    ensures intent.None? || solver.None? ==> r == Fail(AccountNotInitialized)
    ensures intent.Some? && solver.Some? ==>
      var i, s := intent.value, solver.value;
      && (i.status != Created ==> r == Fail(IntentAlreadyMatched))
      && (i.status == Created && !s.isActive ==> r == Fail(SolverNotActive))
      && (i.status == Created && s.isActive && now >= i.expiresAt ==> r == Fail(IntentExpired))
      && (i.status == Created && s.isActive && now < i.expiresAt
          && !SupportsChain(s.supportedChains, i.destinationChain)
          ==> r == Fail(ChainNotSupported))
  {
    if intent.None? || solver.None? then Fail(AccountNotInitialized)
    else if intent.value.status != Created then Fail(IntentAlreadyMatched)
    else if !solver.value.isActive then Fail(SolverNotActive)
    else if now >= intent.value.expiresAt then Fail(IntentExpired)
    else if !SupportsChain(solver.value.supportedChains, intent.value.destinationChain) then Fail(ChainNotSupported)
    else Pass
  }

  /** Once the clock reaches `expires_at` no active solver can match the intent. */
  lemma MatchRejectsExpired(intent: Intent, solver: Solver, now: int)
    requires intent.status == Created && solver.isActive
    requires now >= intent.expiresAt
    ensures MatchCheck(Some(intent), Some(solver), now) == Fail(IntentExpired)
  {
  }

  /** Only the destination chain is checked: a solver supporting only NEAR
      matches an intent from Solana to NEAR although it lacks the Solana bit. */
  lemma MatchChecksDestinationOnly(intent: Intent, solver: Solver, now: int)
    requires intent.status == Created && intent.sourceChain == Solana && intent.destinationChain == Near
    requires solver.isActive && solver.supportedChains == 2 && now < intent.expiresAt
    ensures !SupportsChain(solver.supportedChains, intent.sourceChain)
    ensures MatchCheck(Some(intent), Some(solver), now) == Pass
  {
  }

  function ExecuteCheck(intent: Option<Intent>, caller: Pubkey): (r: Outcome<ErrorCode>)
    ensures r == Pass <==> intent.Some? && intent.value.solver == Some(caller) && intent.value.status == Matched
    ensures intent.None? ==> r == Fail(AccountNotInitialized)
    ensures intent.Some? && intent.value.solver != Some(caller) ==> r == Fail(NotMatchedSolver)
    ensures intent.Some? && intent.value.solver == Some(caller) && intent.value.status != Matched
      ==> r == Fail(InvalidIntentStatus)
  {
    if intent.None? then Fail(AccountNotInitialized)
    else if intent.value.solver != Some(caller) then Fail(NotMatchedSolver)
    else if intent.value.status != Matched then Fail(InvalidIntentStatus)
    else Pass
  }

  datatype Split = Split(solverReward: nat, protocolFee: nat)

  /** The fee computation of `settle_intent`: a checked u128 product, a
      checked division by 10000, a truncating `as u64` cast, then a checked
      subtraction for the reward. */
  function FeeSplit(sourceAmount: U64, protocolFeeBps: U16): (r: Result<Split, ErrorCode>)
    ensures r.Ok? ==> r.value.solverReward + r.value.protocolFee == sourceAmount
    ensures r.Err? ==> r.error == Overflow
  {
    var product := sourceAmount * protocolFeeBps;
    if product >= U128_LIMIT then Err(Overflow)
    else
      var fee := (product / Fees.BPS_DENOMINATOR) % U64_LIMIT;
      if fee > sourceAmount then Err(Overflow)
      else Ok(Split(sourceAmount - fee, fee))
  }

  /** At any rate up to 100% none of the checked steps fails and the fee is
      the protocol fee rounded down; 10000 lamports at 250 bps split into a
      reward of 9750 and a fee of 250. */
  lemma FeeSplitIsProtocolFee(sourceAmount: U64, protocolFeeBps: U16)
    requires protocolFeeBps <= Fees.BPS_DENOMINATOR
    ensures FeeSplit(sourceAmount, protocolFeeBps)
         == Ok(Split(sourceAmount - Fees.ProtocolFee(sourceAmount, protocolFeeBps),
                     Fees.ProtocolFee(sourceAmount, protocolFeeBps)))
  {
    Fees.MulMonotone(sourceAmount, protocolFeeBps, Fees.BPS_DENOMINATOR);
    Fees.MulMonotone(Fees.BPS_DENOMINATOR, sourceAmount, U64_LIMIT);
    Fees.FeeWithinAmount(sourceAmount, protocolFeeBps);
  }

  lemma FeeSplitExample()
    ensures FeeSplit(10000, 250) == Ok(Split(9750, 250))
  {
    FeeSplitIsProtocolFee(10000, 250);
    Fees.SettlementExample();
  }

  /** `boundSolverRegistered`: the solver the intent is bound to has a solver
      record. `solverAuthority` and `feeVault` are the accounts the caller
      passes to receive the reward and the fee. */
  function SettleCheck(
    intent: Option<Intent>, boundSolverRegistered: bool, solverAuthority: Pubkey, feeVault: Pubkey,
    config: BridgeConfig, vaultBalance: nat): (r: Result<Split, ErrorCode>)
    ensures r.Ok? <==>
      && intent.Some? && intent.value.status == Executed
      && intent.value.solver == Some(solverAuthority) && boundSolverRegistered
      && feeVault == config.feeVault
      && FeeSplit(intent.value.sourceAmount, config.protocolFeeBps).Ok?
      && vaultBalance >= intent.value.sourceAmount
    ensures r.Ok? ==> r == FeeSplit(intent.value.sourceAmount, config.protocolFeeBps)
    ensures intent.None? ==> r == Err(AccountNotInitialized)
    ensures intent.Some? ==>
      var i := intent.value;
      && (i.status != Executed ==> r == Err(IntentNotExecuted))
      && (i.status == Executed && (i.solver.None? || !boundSolverRegistered) ==> r == Err(AccountNotInitialized))
      && (i.status == Executed && i.solver.Some? && boundSolverRegistered ==>
          && (i.solver != Some(solverAuthority) ==> r == Err(NotMatchedSolver))
          && (i.solver == Some(solverAuthority) && feeVault != config.feeVault ==> r == Err(InvalidFeeVault))
          && (i.solver == Some(solverAuthority) && feeVault == config.feeVault ==>
              && (FeeSplit(i.sourceAmount, config.protocolFeeBps).Err? ==> r == Err(Overflow))
              && (FeeSplit(i.sourceAmount, config.protocolFeeBps).Ok? && vaultBalance < i.sourceAmount
                  ==> r == Err(InsufficientFunds))))
  {
    if intent.None? then Err(AccountNotInitialized)
    else if intent.value.status != Executed then Err(IntentNotExecuted)
    else if intent.value.solver.None? || !boundSolverRegistered then Err(AccountNotInitialized)
    else if intent.value.solver != Some(solverAuthority) then Err(NotMatchedSolver)
    else if feeVault != config.feeVault then Err(InvalidFeeVault)
    else
      match FeeSplit(intent.value.sourceAmount, config.protocolFeeBps)
      case Err(e) => Err(e)
      case Ok(split) =>
        if vaultBalance < split.solverReward then Err(InsufficientFunds)
        else if vaultBalance - split.solverReward < split.protocolFee then Err(InsufficientFunds)
        else Ok(split)
  }

  /** `callerRegistered`: the caller has a solver record. `creator` is the
      account the caller passes to receive the refund. The status of the
      intent is never consulted. */
  function FailCheck(
    intent: Option<Intent>, callerRegistered: bool, caller: Pubkey, creator: Pubkey, vaultBalance: nat): (r: Outcome<ErrorCode>)
    ensures r == Pass <==>
      && intent.Some? && callerRegistered
      && intent.value.solver == Some(caller)
      && creator == intent.value.creator
      && vaultBalance >= intent.value.sourceAmount
    ensures intent.None? || !callerRegistered ==> r == Fail(AccountNotInitialized)
    ensures intent.Some? && callerRegistered ==>
      var i := intent.value;
      && (i.solver != Some(caller) ==> r == Fail(NotMatchedSolver))
      && (i.solver == Some(caller) && creator != i.creator ==> r == Fail(InvalidCreator))
      && (i.solver == Some(caller) && creator == i.creator && vaultBalance < i.sourceAmount
          ==> r == Fail(InsufficientFunds))
  {
    if intent.None? || !callerRegistered then Fail(AccountNotInitialized)
    else if intent.value.solver != Some(caller) then Fail(NotMatchedSolver)
    else if creator != intent.value.creator then Fail(InvalidCreator)
    else if vaultBalance < intent.value.sourceAmount then Fail(InsufficientFunds)
    else Pass
  }

  /** `fail_intent` has no status guard: an intent that was already settled
      (or already failed) passes exactly the checks it would pass while
      matched, so its bound solver can have the creator refunded a second
      time whenever the vault holds the amount again. */
  lemma FailIgnoresStatus(
    intent: Intent, s: IntentStatus, callerRegistered: bool, caller: Pubkey, creator: Pubkey, vaultBalance: nat)
    ensures FailCheck(Some(intent.(status := s)), callerRegistered, caller, creator, vaultBalance)
         == FailCheck(Some(intent), callerRegistered, caller, creator, vaultBalance)
  {
  }

  lemma FailCallableWhenSettled(intent: Intent, caller: Pubkey, vaultBalance: nat)
    requires intent.status == Settled && intent.solver == Some(caller)
    requires vaultBalance >= intent.sourceAmount
    ensures FailCheck(Some(intent), true, caller, intent.creator, vaultBalance) == Pass
  {
  }

  function AdminCheck(caller: Pubkey, owner: Pubkey, feeBps: U16): (r: Outcome<ErrorCode>)
    ensures r == Pass <==> caller == owner && feeBps <= Fees.MAX_PROTOCOL_FEE_BPS
    ensures caller != owner ==> r == Fail(Unauthorized)
    ensures caller == owner && feeBps > Fees.MAX_PROTOCOL_FEE_BPS ==> r == Fail(FeeTooHigh)
  {
    if caller != owner then Fail(Unauthorized)
    else if feeBps > Fees.MAX_PROTOCOL_FEE_BPS then Fail(FeeTooHigh)
    else Pass
  }

  function DeactivateCheck(solverExists: bool, caller: Pubkey, owner: Pubkey): (r: Outcome<ErrorCode>)
    ensures r == Pass <==> solverExists && caller == owner
    ensures !solverExists ==> r == Fail(AccountNotInitialized)
    ensures solverExists && caller != owner ==> r == Fail(Unauthorized)
  {
    if !solverExists then Fail(AccountNotInitialized)
    else if caller != owner then Fail(Unauthorized)
    else Pass
  }

  // ---------------------------------------------------------------------------
  // The program state

  /** What holds for every stored intent: its key is its id, it is bound to a
      solver exactly when it has left `Created`, only the five statuses the
      handlers write occur, a bound solver is registered, and while the
      intent is open (created, matched or executed) its vault holds at least
      its amount. */
  ghost predicate IntentConsistent(id: IntentId, i: Intent, registered: set<Pubkey>, vaultBalance: nat) {
    && i.intentId == id
    && i.sourceAmount > 0
    && i.sourceChain == Solana
    && (i.status == Created <==> i.solver.None?)
    && i.status in {Created, Matched, Executed, Settled, Failed}
    && (i.solver.Some? ==> i.solver.value in registered)
    && (i.status in {Created, Matched, Executed} ==> vaultBalance >= i.sourceAmount)
  }

  /** Under the invariant, settlement of an executed intent can only fail on
      the accounts passed in: it pays out exactly the escrowed amount, split
      into the protocol fee and the reward. */
  lemma SettleSucceedsWhenExecuted(
    id: IntentId, i: Intent, registered: set<Pubkey>, config: BridgeConfig, vaultBalance: nat)
    requires IntentConsistent(id, i, registered, vaultBalance)
    requires config.protocolFeeBps <= Fees.MAX_PROTOCOL_FEE_BPS
    requires i.status == Executed
    ensures SettleCheck(Some(i), true, i.solver.value, config.feeVault, config, vaultBalance)
         == Ok(Split(i.sourceAmount - Fees.ProtocolFee(i.sourceAmount, config.protocolFeeBps),
                     Fees.ProtocolFee(i.sourceAmount, config.protocolFeeBps)))
  {
    FeeSplitIsProtocolFee(i.sourceAmount, config.protocolFeeBps);
  }

  /** Under the invariant an intent still waiting for a solver can never be
      failed: nobody is its bound solver. */
  lemma CreatedIntentCannotFail(
    id: IntentId, i: Intent, registered: set<Pubkey>, vaultBalance: nat,
    callerRegistered: bool, caller: Pubkey, creator: Pubkey)
    requires IntentConsistent(id, i, registered, vaultBalance)
    requires i.status == Created
    ensures FailCheck(Some(i), callerRegistered, caller, creator, vaultBalance) != Pass
  {
  }

  /** Every solver record is stored under its own key, and since only
      settlement counts executions, and counts each one as a success, the
      two counters agree. */
  ghost predicate SolversConsistent(solvers: map<Pubkey, Solver>) {
    forall k :: k in solvers ==>
      solvers[k].solverId == k && solvers[k].totalIntentsExecuted == solvers[k].successfulIntents
  }

  ghost predicate IntentsConsistent(intents: map<IntentId, Intent>, registered: set<Pubkey>, lamports: map<Account, nat>) {
    forall id :: id in intents ==> IntentConsistent(id, intents[id], registered, Ledger.Bal(lamports, Vault(id)))
  }

  /** The two lamport moves of `settle_intent`: the reward from the vault to
      the solver's wallet, then the fee from the vault to the fee vault. The
      vault loses exactly the escrowed amount, the two wallets gain their
      shares (both, when they are one wallet), every other account keeps
      its balance, and no lamport is created or destroyed. */
  function PayOut(lamports: map<Account, nat>, id: IntentId, solverWallet: Pubkey, feeVault: Pubkey, split: Split)
    : (r: map<Account, nat>)
    requires Ledger.Bal(lamports, Vault(id)) >= split.solverReward + split.protocolFee
    ensures Ledger.Bal(r, Vault(id)) == Ledger.Bal(lamports, Vault(id)) - split.solverReward - split.protocolFee
    ensures forall j: IntentId :: j != id ==> Ledger.Bal(r, Vault(j)) == Ledger.Bal(lamports, Vault(j))
    ensures solverWallet != feeVault ==>
      && Ledger.Bal(r, Wallet(solverWallet)) == Ledger.Bal(lamports, Wallet(solverWallet)) + split.solverReward
      && Ledger.Bal(r, Wallet(feeVault)) == Ledger.Bal(lamports, Wallet(feeVault)) + split.protocolFee
    ensures solverWallet == feeVault ==>
      Ledger.Bal(r, Wallet(feeVault)) == Ledger.Bal(lamports, Wallet(feeVault)) + split.solverReward + split.protocolFee
    ensures forall a :: a != Vault(id) && a != Wallet(solverWallet) && a != Wallet(feeVault) ==>
      Ledger.Bal(r, a) == Ledger.Bal(lamports, a)
  {
    var afterReward := Ledger.Transfer(lamports, Vault(id), Wallet(solverWallet), split.solverReward);
    Ledger.Transfer(afterReward, Vault(id), Wallet(feeVault), split.protocolFee)
  }

  /** Settlement's payout creates and destroys no lamport. */
  lemma PayOutConserves(lamports: map<Account, nat>, id: IntentId, solverWallet: Pubkey, feeVault: Pubkey, split: Split)
    requires Ledger.Bal(lamports, Vault(id)) >= split.solverReward + split.protocolFee
    ensures Ledger.Total(PayOut(lamports, id, solverWallet, feeVault, split)) == Ledger.Total(lamports)
  {
    var afterReward := Ledger.Transfer(lamports, Vault(id), Wallet(solverWallet), split.solverReward);
    Ledger.TransferConserves(lamports, Vault(id), Wallet(solverWallet), split.solverReward);
    Ledger.TransferConserves(afterReward, Vault(id), Wallet(feeVault), split.protocolFee);
  }

  /** Closing a bound intent (settling or failing it) keeps every intent
      consistent as long as no other intent's vault changes. */
  lemma CloseIntentKeepsConsistency(
    intents: map<IntentId, Intent>, registered: set<Pubkey>, lamports0: map<Account, nat>,
    lamports1: map<Account, nat>, id: IntentId, s: IntentStatus)
    requires IntentsConsistent(intents, registered, lamports0)
    requires id in intents && intents[id].solver.Some? && s in {Settled, Failed}
    requires forall j: IntentId :: j != id ==> Ledger.Bal(lamports1, Vault(j)) == Ledger.Bal(lamports0, Vault(j))
    ensures IntentsConsistent(intents[id := intents[id].(status := s)], registered, lamports1)
  {
    var intents1 := intents[id := intents[id].(status := s)];
    forall j | j in intents1
      ensures IntentConsistent(j, intents1[j], registered, Ledger.Bal(lamports1, Vault(j)))
    {
      assert IntentConsistent(j, intents[j], registered, Ledger.Bal(lamports0, Vault(j)));
    }
  }

  /** Replacing one solver record by one with the same key and agreeing
      counters keeps the solver table consistent and its key set unchanged. */
  lemma UpdateSolverKeepsConsistency(solvers: map<Pubkey, Solver>, k: Pubkey, sv: Solver)
    requires SolversConsistent(solvers) && k in solvers
    requires sv.solverId == k && sv.totalIntentsExecuted == sv.successfulIntents
    ensures SolversConsistent(solvers[k := sv]) && solvers[k := sv].Keys == solvers.Keys
  {
  }

  /** Closing a bound intent and replacing one solver record by one with the
      same key and agreeing counters keeps intents and solvers consistent,
      as long as no other intent's vault changes. */
  lemma CloseKeepsConsistent(
    intents: map<IntentId, Intent>, solvers: map<Pubkey, Solver>, lamports0: map<Account, nat>,
    lamports1: map<Account, nat>, id: IntentId, s: IntentStatus, k: Pubkey, sv: Solver)
    requires SolversConsistent(solvers) && IntentsConsistent(intents, solvers.Keys, lamports0)
    requires id in intents && intents[id].solver.Some? && s in {Settled, Failed}
    requires forall j: IntentId :: j != id ==> Ledger.Bal(lamports1, Vault(j)) == Ledger.Bal(lamports0, Vault(j))
    requires k in solvers && sv.solverId == k && sv.totalIntentsExecuted == sv.successfulIntents
    ensures SolversConsistent(solvers[k := sv])
    ensures IntentsConsistent(intents[id := intents[id].(status := s)], solvers[k := sv].Keys, lamports1)
  {
    CloseIntentKeepsConsistency(intents, solvers.Keys, lamports0, lamports1, id, s);
    UpdateSolverKeepsConsistency(solvers, k, sv);
  }

  class Bridge {
    var config: BridgeConfig
    var intents: map<IntentId, Intent>
    var solvers: map<Pubkey, Solver>
    var lamports: map<Account, nat>

    ghost predicate Valid()
      reads this
    {
      && config.protocolFeeBps <= Fees.MAX_PROTOCOL_FEE_BPS
      && SolversConsistent(solvers)
      && IntentsConsistent(intents, solvers.Keys, lamports)
    }

    constructor (config: BridgeConfig, lamports: map<Account, nat>)
      requires config.protocolFeeBps <= Fees.MAX_PROTOCOL_FEE_BPS
      ensures Valid()
      ensures this.config == config && this.lamports == lamports
      ensures intents == map[] && solvers == map[]
    {
      this.config := config;
      this.intents := map[];
      this.solvers := map[];
      this.lamports := lamports;
    }

    /** `initialize_bridge`: rejects a fee above 10%, otherwise a bridge with
        zeroed statistics and no intents or solvers. */
    static method InitializeBridge(
      owner: Pubkey, feeVault: Pubkey, minSolverStake: U64, protocolFeeBps: U16, lamports: map<Account, nat>)
      returns (r: Result<Bridge, ErrorCode>)
      ensures r.Err? <==> protocolFeeBps > Fees.MAX_PROTOCOL_FEE_BPS
      ensures r.Err? ==> r.error == FeeTooHigh
      ensures r.Ok? ==> fresh(r.value) && r.value.Valid()
      ensures r.Ok? ==> r.value.config == BridgeConfig(owner, minSolverStake, protocolFeeBps, 0, 0, 0, feeVault)
      ensures r.Ok? ==> r.value.intents == map[] && r.value.solvers == map[] && r.value.lamports == lamports
    {
      if protocolFeeBps > Fees.MAX_PROTOCOL_FEE_BPS {
        return Err(FeeTooHigh);
      }
      var b := new Bridge(BridgeConfig(owner, minSolverStake, protocolFeeBps, 0, 0, 0, feeVault), lamports);
      return Ok(b);
    }

    /** `register_solver`: the stake is only compared with the caller's
        balance, nothing is transferred. */
    method RegisterSolver(caller: Pubkey, supportedChains: bv8, now: int) returns (r: Outcome<ErrorCode>)
      requires Valid()
      modifies this
      ensures Valid()
      ensures r == RegisterSolverCheck(caller in old(solvers), supportedChains,
                                       Ledger.Bal(old(lamports), Wallet(caller)), old(config).minSolverStake)
      ensures r.Pass? ==> solvers == old(solvers)[caller := Solver(caller, supportedChains, old(config).minSolverStake,
                                                                  INITIAL_REPUTATION, 0, 0, 0, 0, true, now)]
      ensures r.Pass? ==> config == old(config).(activeSolvers := old(config).activeSolvers + 1)
      ensures r.Pass? ==> intents == old(intents) && lamports == old(lamports)
      ensures r.Fail? ==> unchanged(this)
    {
      r := RegisterSolverCheck(caller in solvers, supportedChains, Ledger.Bal(lamports, Wallet(caller)), config.minSolverStake);
      if r.Pass? {
        solvers := solvers[caller := Solver(caller, supportedChains, config.minSolverStake,
                                            INITIAL_REPUTATION, 0, 0, 0, 0, true, now)];
        config := config.(activeSolvers := config.activeSolvers + 1);
      }
    }

    /** `create_intent`: escrows `sourceAmount` from the creator's wallet in
        the intent's vault. */
    method CreateIntent(
      caller: Pubkey, intentId: IntentId, destinationChain: Chain, destinationAmountCommitment: Bytes32,
      destinationTokenHash: Bytes32, recipientHash: Bytes32, isShielded: bool, ttlSeconds: int,
      sourceAmount: U64, now: int)
      returns (r: Outcome<ErrorCode>)
      requires Valid()
      modifies this
      ensures Valid()
      ensures r == CreateIntentCheck(intentId in old(intents), sourceAmount, Ledger.Bal(old(lamports), Wallet(caller)))
      ensures r.Pass? ==> intents == old(intents)[intentId := Intent(
        intentId, caller, Solana, destinationChain, sourceAmount, destinationAmountCommitment, NATIVE_SOL,
        destinationTokenHash, recipientHash, isShielded, Created, None, now, now + ttlSeconds, None,
        ZEROS_32, ZEROS_32)]
      ensures r.Pass? ==> lamports == Ledger.Transfer(old(lamports), Wallet(caller), Vault(intentId), sourceAmount)
      ensures r.Pass? ==> Ledger.Bal(lamports, Vault(intentId)) == Ledger.Bal(old(lamports), Vault(intentId)) + sourceAmount
      ensures r.Pass? ==> config == old(config).(totalIntents := old(config).totalIntents + 1)
      ensures r.Pass? ==> solvers == old(solvers)
      ensures Ledger.Total(lamports) == Ledger.Total(old(lamports))
      ensures r.Fail? ==> unchanged(this)
    {
      r := CreateIntentCheck(intentId in intents, sourceAmount, Ledger.Bal(lamports, Wallet(caller)));
      if r.Pass? {
        Ledger.TransferConserves(lamports, Wallet(caller), Vault(intentId), sourceAmount);
        lamports := Ledger.Transfer(lamports, Wallet(caller), Vault(intentId), sourceAmount);
        intents := intents[intentId := Intent(
          intentId, caller, Solana, destinationChain, sourceAmount, destinationAmountCommitment, NATIVE_SOL,
          destinationTokenHash, recipientHash, isShielded, Created, None, now, now + ttlSeconds, None,
          ZEROS_32, ZEROS_32)];
        config := config.(totalIntents := config.totalIntents + 1);
      }
    }

    /** `match_intent`: binds the intent to the calling solver. */
    method MatchIntent(intentId: IntentId, caller: Pubkey, now: int) returns (r: Outcome<ErrorCode>)
      requires Valid()
      modifies this
      ensures Valid()
      ensures r == MatchCheck(Find(old(intents), intentId), Find(old(solvers), caller), now)
      ensures r.Pass? ==> intents == old(intents)[intentId := old(intents)[intentId].(status := Matched, solver := Some(caller))]
      ensures r.Pass? ==> solvers == old(solvers) && config == old(config) && lamports == old(lamports)
      ensures r.Fail? ==> unchanged(this)
    {
      r := MatchCheck(Find(intents, intentId), Find(solvers, caller), now);
      if r.Pass? {
        intents := intents[intentId := intents[intentId].(status := Matched, solver := Some(caller))];
      }
    }

    /** `execute_intent`: records the destination transaction; the privacy
        proof is replaced only when one is supplied. */
    method ExecuteIntent(
      intentId: IntentId, caller: Pubkey, destinationTxHash: Bytes32, privacyProof: Option<Bytes32>, now: int)
      returns (r: Outcome<ErrorCode>)
      requires Valid()
      modifies this
      ensures Valid()
      ensures r == ExecuteCheck(Find(old(intents), intentId), caller)
      ensures r.Pass? ==> intentId in old(intents) && intents == old(intents)[intentId := old(intents)[intentId].(
        status := Executed, executedAt := Some(now), destinationTxHash := destinationTxHash,
        privacyProof := if privacyProof.Some? then privacyProof.value else old(intents)[intentId].privacyProof)]
      ensures r.Pass? ==> solvers == old(solvers) && config == old(config) && lamports == old(lamports)
      ensures r.Fail? ==> unchanged(this)
    {
      r := ExecuteCheck(Find(intents, intentId), caller);
      if r.Pass? {
        var i := intents[intentId];
        var proof := if privacyProof.Some? then privacyProof.value else i.privacyProof;
        intents := intents[intentId := i.(status := Executed, executedAt := Some(now),
                                          destinationTxHash := destinationTxHash, privacyProof := proof)];
      }
    }

    /** `settle_intent`: anyone may call it once the intent is executed. */
    method SettleIntent(intentId: IntentId, solverAuthority: Pubkey, feeVault: Pubkey) returns (r: Outcome<ErrorCode>)
      requires Valid()
      modifies this
      ensures Valid()
      ensures var s := SettleCheck(Find(old(intents), intentId),
                                   intentId in old(intents) && old(intents)[intentId].solver.Some?
                                     && old(intents)[intentId].solver.value in old(solvers),
                                   solverAuthority, feeVault, old(config), Ledger.Bal(old(lamports), Vault(intentId)));
              r == (if s.Ok? then Pass else Fail(s.error))
      ensures r.Pass? ==>
        var i := old(intents)[intentId];
        var split := FeeSplit(i.sourceAmount, old(config).protocolFeeBps).value;
        && split.protocolFee == Fees.ProtocolFee(i.sourceAmount, old(config).protocolFeeBps)
        && intents == old(intents)[intentId := i.(status := Settled)]
        && solvers == old(solvers)[solverAuthority := old(solvers)[solverAuthority].(
             totalIntentsExecuted := old(solvers)[solverAuthority].totalIntentsExecuted + 1,
             successfulIntents := old(solvers)[solverAuthority].successfulIntents + 1,
             totalVolume := old(solvers)[solverAuthority].totalVolume + i.sourceAmount,
             reputationScore := SaturatingAddU32(old(solvers)[solverAuthority].reputationScore, 1))]
        && config == old(config).(totalVolume := old(config).totalVolume + i.sourceAmount)
        && lamports == PayOut(old(lamports), intentId, solverAuthority, feeVault, split)
      ensures r.Fail? ==> unchanged(this)
    {
      var found := Find(intents, intentId);
      var registered := found.Some? && found.value.solver.Some? && found.value.solver.value in solvers;
      var s := SettleCheck(found, registered, solverAuthority, feeVault, config, Ledger.Bal(lamports, Vault(intentId)));
      if s.Err? {
        return Fail(s.error);
      }
      FeeSplitIsProtocolFee(intents[intentId].sourceAmount, config.protocolFeeBps);
      ApplySettlement(intentId, solverAuthority, feeVault, s.value);
      r := Pass;
    }

    /** The state change of a successful `settle_intent`: the vault pays out
        the split, the intent is settled, the solver credited with one more
        successful execution and the bridge with the volume. */
    method ApplySettlement(intentId: IntentId, solverAuthority: Pubkey, feeVault: Pubkey, split: Split)
      requires Valid()
      requires intentId in intents && intents[intentId].solver == Some(solverAuthority)
      requires solverAuthority in solvers
      requires split.solverReward + split.protocolFee == intents[intentId].sourceAmount
      requires Ledger.Bal(lamports, Vault(intentId)) >= intents[intentId].sourceAmount
      modifies this
      ensures Valid()
      ensures
        var i := old(intents)[intentId];
        && intents == old(intents)[intentId := i.(status := Settled)]
        && solvers == old(solvers)[solverAuthority := old(solvers)[solverAuthority].(
             totalIntentsExecuted := old(solvers)[solverAuthority].totalIntentsExecuted + 1,
             successfulIntents := old(solvers)[solverAuthority].successfulIntents + 1,
             totalVolume := old(solvers)[solverAuthority].totalVolume + i.sourceAmount,
             reputationScore := SaturatingAddU32(old(solvers)[solverAuthority].reputationScore, 1))]
        && config == old(config).(totalVolume := old(config).totalVolume + i.sourceAmount)
        && lamports == PayOut(old(lamports), intentId, solverAuthority, feeVault, split)
    {
      var i := intents[intentId];
      var lamports' := PayOut(lamports, intentId, solverAuthority, feeVault, split);
      var sv := solvers[solverAuthority];
      var sv' := sv.(
        totalIntentsExecuted := sv.totalIntentsExecuted + 1,
        successfulIntents := sv.successfulIntents + 1,
        totalVolume := sv.totalVolume + i.sourceAmount,
        reputationScore := SaturatingAddU32(sv.reputationScore, 1));
      CloseKeepsConsistent(intents, solvers, lamports, lamports', intentId, Settled, solverAuthority, sv');
      lamports := lamports';
      solvers := solvers[solverAuthority := sv'];
      intents := intents[intentId := i.(status := Settled)];
      config := config.(totalVolume := config.totalVolume + i.sourceAmount);
    }

    /** `fail_intent`: refunds the creator from the vault, whatever the
        status of the intent. */
    method FailIntent(intentId: IntentId, caller: Pubkey, creator: Pubkey) returns (r: Outcome<ErrorCode>)
      requires Valid()
      modifies this
      ensures Valid()
      ensures r == FailCheck(Find(old(intents), intentId), caller in old(solvers), caller, creator,
                             Ledger.Bal(old(lamports), Vault(intentId)))
      ensures r.Pass? ==>
        var i := old(intents)[intentId];
        && intents == old(intents)[intentId := i.(status := Failed)]
        && solvers == old(solvers)[caller := old(solvers)[caller].(
             failedIntents := old(solvers)[caller].failedIntents + 1,
             reputationScore := SaturatingSub(old(solvers)[caller].reputationScore, FAILURE_PENALTY))]
        && lamports == Ledger.Transfer(old(lamports), Vault(intentId), Wallet(creator), i.sourceAmount)
        && config == old(config)
      ensures r.Fail? ==> unchanged(this)
    {
      r := FailCheck(Find(intents, intentId), caller in solvers, caller, creator, Ledger.Bal(lamports, Vault(intentId)));
      if r.Pass? {
        ApplyFailure(intentId, caller, creator);
      }
    }

    /** The state change of a successful `fail_intent`: the vault refunds the
        escrowed amount, the intent is failed and the solver penalised. */
    method ApplyFailure(intentId: IntentId, caller: Pubkey, creator: Pubkey)
      requires Valid()
      requires intentId in intents && intents[intentId].solver == Some(caller) && caller in solvers
      requires Ledger.Bal(lamports, Vault(intentId)) >= intents[intentId].sourceAmount
      modifies this
      ensures Valid()
      ensures
        var i := old(intents)[intentId];
        && intents == old(intents)[intentId := i.(status := Failed)]
        && solvers == old(solvers)[caller := old(solvers)[caller].(
             failedIntents := old(solvers)[caller].failedIntents + 1,
             reputationScore := SaturatingSub(old(solvers)[caller].reputationScore, FAILURE_PENALTY))]
        && lamports == Ledger.Transfer(old(lamports), Vault(intentId), Wallet(creator), i.sourceAmount)
        && config == old(config)
    {
      var i := intents[intentId];
      var lamports' := Ledger.Transfer(lamports, Vault(intentId), Wallet(creator), i.sourceAmount);
      var sv := solvers[caller];
      var sv' := sv.(
        failedIntents := sv.failedIntents + 1,
        reputationScore := SaturatingSub(sv.reputationScore, FAILURE_PENALTY));
      CloseKeepsConsistent(intents, solvers, lamports, lamports', intentId, Failed, caller, sv');
      lamports := lamports';
      solvers := solvers[caller := sv'];
      intents := intents[intentId := i.(status := Failed)];
    }

    /** `set_protocol_fee`: owner only, at most 10%. */
    method SetProtocolFee(caller: Pubkey, feeBps: U16) returns (r: Outcome<ErrorCode>)
      requires Valid()
      modifies this
      ensures Valid()
      ensures r == AdminCheck(caller, old(config).owner, feeBps)
      ensures r.Pass? ==> config == old(config).(protocolFeeBps := feeBps)
      ensures intents == old(intents) && solvers == old(solvers) && lamports == old(lamports)
      ensures r.Fail? ==> unchanged(this)
    {
      r := AdminCheck(caller, config.owner, feeBps);
      if r.Pass? {
        config := config.(protocolFeeBps := feeBps);
      }
    }

    /** `deactivate_solver`: owner only; deactivating twice decrements the
        active count twice (down to zero). */
    method DeactivateSolver(caller: Pubkey, solverId: Pubkey) returns (r: Outcome<ErrorCode>)
      requires Valid()
      modifies this
      ensures Valid()
      ensures r == DeactivateCheck(solverId in old(solvers), caller, old(config).owner)
      ensures r.Pass? ==> solvers == old(solvers)[solverId := old(solvers)[solverId].(isActive := false)]
      ensures r.Pass? ==> config == old(config).(activeSolvers := SaturatingSub(old(config).activeSolvers, 1))
      ensures intents == old(intents) && lamports == old(lamports)
      ensures r.Fail? ==> unchanged(this)
    {
      r := DeactivateCheck(solverId in solvers, caller, config.owner);
      if r.Pass? {
        solvers := solvers[solverId := solvers[solverId].(isActive := false)];
        config := config.(activeSolvers := SaturatingSub(config.activeSolvers, 1));
      }
    }
  }
}
