/** What every call demands, in which order, and what it leaves behind, told from its arguments. */
module Calls {
  import opened Prelude
  import opened Xcm
  import opened Ledgers
  import opened Eip712
  import opened Bridge
  import opened Atoms
  import opened Acceptance
  import DepositData

  // ---- Errors: the first check that fails

  predicate Registered(s: State, d: DomainId) {
    d in s.domains && s.domains[d]
  }

  predicate Paused(s: State, d: DomainId) {
    d in s.paused && s.paused[d]
  }

  /** The error of a deposit, if any. */
  ghost function DepositError(cfg: Config, env: Env, s: State, origin: Origin, asset: MultiAsset, dest: MultiLocation)
    : Option<Error>
  {
    if !origin.Signed? then Some(BadOrigin)
    else if s.mpc == 0 then Some(MissingMpcAddress)
    else if cfg.extractDest(dest) == None then Some(ExtractDestDataFailed)
    else
      var d := cfg.extractDest(dest).value.1;
      if Paused(s, d) then Some(BridgePaused)
      else if !Registered(s, d) then Some(DestDomainNotSupported)
      else if asset.fun.NonFungible? || !HasEntry<AssetId, ResourceId>(cfg.resources, asset.id) then Some(AssetNotBound)
      else if env.getFee(d, asset) == None then Some(MissingFeeConfig)
      else
        var amount, fee := asset.fun.amount, env.getFee(d, asset).value;
        if amount <= fee then Some(FeeTooExpensive)
        else FundsError(cfg, env, s, origin.who, asset.id, amount, fee, d)
  }

  /** The error of moving the funds of a deposit and announcing it. */
  function FundsError(cfg: Config, env: Env, s: State, who: Account, id: AssetId, amount: u128, fee: u128, d: DomainId)
    : Option<Error>
    requires fee < amount
  {
    var all, part, rest := Units(id, amount), Units(id, fee), Units(id, amount - fee);
    if !env.canWithdraw(s.ledger, all, who) || Balance(s.ledger, id, who) < amount then Some(TransactFailed)
    else
      var burnt := Debit(s.ledger, id, who, amount);
      if !env.canDeposit(burnt, part, AccountLocation(cfg.feeAccount)) then Some(TransactFailed)
      else if id !in cfg.reserveAccounts then Some(NoLiquidityHolderAccountBound)
      else if cfg.isReserve(all) && !env.canDeposit(Credit(burnt, id, cfg.feeAccount, fee), rest,
                                                    AccountLocation(cfg.reserveAccounts[id])) then Some(TransactFailed)
      else if d in s.counts && s.counts[d] == TWO_64 - 1 then Some(DepositNonceOverflow)
      else if cfg.convertTo(id, amount - fee) == None then Some(DecimalConversionFail)
      else None
  }

  lemma FundsFailFirst(cfg: Config, env: Env, s: State, id: AssetId, q: Quote)
    requires q.fee < q.amount
    ensures match FundsError(cfg, env, s, q.sender, id, q.amount, q.fee, q.domain)
            case Some(e) => Complete(cfg, env, s, Units(id, q.amount), q) == Failure(e)
            case None => Complete(cfg, env, s, Units(id, q.amount), q).Success?
  {}

  lemma DepositFailsFirst(cfg: Config, env: Env, s: State, origin: Origin, asset: MultiAsset, dest: MultiLocation)
    ensures match DepositError(cfg, env, s, origin, asset, dest)
            case Some(e) => Deposit(cfg, env, s, origin, asset, dest) == Failure(e)
            case None => Deposit(cfg, env, s, origin, asset, dest).Success?
  {
    EntryIsFound<AssetId, ResourceId>(cfg.resources, asset.id);
    var quote := QuoteOf(cfg, env, s, origin, asset, dest);
    if quote.Success? {
      assert asset == Units(asset.id, quote.value.amount);
      FundsFailFirst(cfg, env, s, asset.id, quote.value);
    }
  }

  /** The error of an administrative call or of the checks before a batch, if any. */
  function AdminError(cfg: Config, env: Env, s: State, call: Call): Option<Error>
    requires !call.MakeDeposit?
  {
    match call
    case PauseBridge(origin, d) =>
      if !env.hasAccess("pause_bridge", origin) then Some(AccessDenied)
      else if !Registered(s, d) then Some(DestDomainNotSupported) else None
    case UnpauseBridge(origin, d) =>
      if !env.hasAccess("unpause_bridge", origin) then Some(AccessDenied)
      else if !Registered(s, d) then Some(DestDomainNotSupported)
      else if !Paused(s, d) then Some(BridgeUnpaused) else None
    case SetMpcAddress(origin, _) =>
      if !env.hasAccess("set_mpc_address", origin) then Some(AccessDenied)
      else if s.mpc != 0 then Some(MpcAddrNotUpdatable) else None
    case RegisterDomain(origin, _, _) =>
      if !env.hasAccess("register_domain", origin) then Some(AccessDenied) else None
    case UnregisterDomain(origin, d, chain) =>
      if !env.hasAccess("unregister_domain", origin) then Some(AccessDenied)
      else if !Registered(s, d) || d !in s.chains then Some(DestDomainNotSupported)
      else if s.chains[d] != chain then Some(DestChainIdNotMatch) else None
    case Retry(origin, _, d) =>
      if !env.hasAccess("retry", origin) then Some(AccessDenied)
      else if s.mpc == 0 then Some(MissingMpcAddress)
      else if Paused(s, d) then Some(BridgePaused)
      else if !Registered(s, d) then Some(DestDomainNotSupported) else None
    case PauseAll(origin) =>
      if !env.hasAccess("pause_all_bridges", origin) then Some(AccessDenied) else None
    case UnpauseAll(origin) =>
      if !env.hasAccess("unpause_all_bridges", origin) then Some(AccessDenied)
      else if s.mpc == 0 then Some(MissingMpcAddress) else None
    case Execute(ps, signature) =>
      if s.mpc == 0 then Some(MissingMpcAddress)
      else if |ps| == 0 then Some(EmptyProposalList)
      else if !env.verifies(cfg.message(ps), signature, s.mpc) then Some(BadMpcSignature) else None
    case Elsewhere(_) => None
  }

  ghost function CallError(cfg: Config, env: Env, s: State, call: Call): Option<Error> {
    if call.MakeDeposit? then DepositError(cfg, env, s, call.origin, call.asset, call.dest)
    else AdminError(cfg, env, s, call)
  }

  lemma AdminFailsFirst(cfg: Config, env: Env, s: State, call: Call)
    requires !call.MakeDeposit?
    ensures match AdminError(cfg, env, s, call)
            case Some(e) => Dispatch(cfg, env, s, call) == Failure(e)
            case None => Dispatch(cfg, env, s, call).Success?
  {}

  /** Every call fails exactly with the error of the first check it does not pass, and succeeds when it passes all. */
  lemma CallsFailAtTheirFirstCheck(cfg: Config, env: Env, s: State, call: Call)
    ensures match CallError(cfg, env, s, call)
            case Some(e) => Dispatch(cfg, env, s, call) == Failure(e)
            case None => Dispatch(cfg, env, s, call).Success?
  {
    if call.MakeDeposit? {
      DepositFailsFirst(cfg, env, s, call.origin, call.asset, call.dest);
    } else {
      AdminFailsFirst(cfg, env, s, call);
    }
  }

  /** The error of a proposal before value moves, if any. */
  function ClaimError(cfg: Config, s: State, p: Proposal): Option<Error> {
    var asset, data := AssetFor(cfg.resources, p.resource), DepositData.Extract(cfg.decodeLocation, p.data);
    if Paused(s, p.origin) then Some(BridgePaused)
    else if !Registered(s, p.origin) then Some(DestDomainNotSupported)
    else if (p.origin, p.nonce) in s.used then Some(ProposalAlreadyComplete)
    else if asset == None then Some(AssetNotBound)
    else if data == None then Some(InvalidDepositData)
    else if cfg.convertFrom(asset.value, data.value.0) == None then Some(DecimalConversionFail)
    else if asset.value !in cfg.reserveAccounts then Some(NoLiquidityHolderAccountBound)
    else None
  }

  /**
   * A proposal that fails a check changes nothing but the log, which reports that check's error; one that passes them
   * all can only fail in moving value.
   */
  lemma ProposalsFailAtTheirFirstCheck(cfg: Config, env: Env, s: State, p: Proposal)
    ensures match ClaimError(cfg, s, p)
            case Some(e) =>
              ExecuteOne(cfg, env, s, p) == s.(events := s.events + [FailedHandlerExecution(e, p.origin, p.nonce)])
            case None =>
              var s' := ExecuteOne(cfg, env, s, p);
              && s'.events != []
              && (var last := s'.events[|s'.events| - 1];
                  || last == FailedHandlerExecution(TransactFailed, p.origin, p.nonce)
                  || last == ProposalExecution(p.origin, p.nonce, cfg.keccak(p.data + cfg.palletTag)))
  {}

  // ---- What calls report

  /** The account an event names: the signer, or the zero account for any other origin. */
  function Signer(origin: Origin): Account {
    match origin
    case Signed(who) => who
    case _ => 0
  }

  function Report(call: Call): seq<Event> {
    match call
    case PauseBridge(_, d) => [DomainPaused(d)]
    case UnpauseBridge(_, d) => [DomainUnpaused(d)]
    case RegisterDomain(origin, d, chain) => [DomainRegistered(Signer(origin), d, chain)]
    case UnregisterDomain(origin, d, chain) => [DomainUnregistered(Signer(origin), d, chain)]
    case Retry(origin, height, d) => [RetryRequested(height, d, Signer(origin))]
    case PauseAll(origin) => [AllPaused(Signer(origin))]
    case UnpauseAll(origin) => [AllUnpaused(Signer(origin))]
    case _ => []
  }

  /** An administrative call reports its arguments, and moves neither value nor nonces. */
  lemma AdministrationReports(cfg: Config, env: Env, s: State, call: Call)
    requires !call.MakeDeposit? && !call.Execute? && !call.Elsewhere? && Dispatch(cfg, env, s, call).Success?
    ensures var s' := Dispatch(cfg, env, s, call).value;
            && s'.events == s.events + Report(call)
            && s'.ledger == s.ledger && s'.counts == s.counts && s'.used == s.used && s'.flows == s.flows
  {}

  // ---- The setup is what the successful calls made it

  predicate Succeeds(cfg: Config, s: State, step: Step) {
    Dispatch(cfg, step.env, s, step.call).Success?
  }

  /** Calls that change nothing of the setup. */
  predicate LeavesSetup(call: Call) {
    call.MakeDeposit? || call.Execute? || call.Retry? || call.Elsewhere?
  }

  lemma OtherCallsKeepTheSetup(cfg: Config, s: State, step: Step)
    requires LeavesSetup(step.call)
    ensures SameSetup(s, Next(cfg, s, step))
  {
    if step.call.Execute? && Succeeds(cfg, s, step) {
      BatchKeepsRules(cfg, step.env, s, step.call.proposals);
    }
  }

  /** The argument of the last successful call that set the MPC address; zero before any. */
  function LastAddress(cfg: Config, s: State, steps: seq<Step>): MpcAddress
    decreases |steps|
  {
    if steps == [] then 0
    else
      var init, step := steps[..|steps| - 1], steps[|steps| - 1];
      if step.call.SetMpcAddress? && Succeeds(cfg, Run(cfg, s, init), step) then step.call.address
      else LastAddress(cfg, s, init)
  }

  /** Chain ids as registered and removed by the successful calls. */
  function CalledRegistry(cfg: Config, s: State, steps: seq<Step>): map<DomainId, ChainId>
    decreases |steps|
  {
    if steps == [] then map[]
    else
      var init, step := steps[..|steps| - 1], steps[|steps| - 1];
      var before := CalledRegistry(cfg, s, init);
      if !Succeeds(cfg, Run(cfg, s, init), step) then before
      else
        match step.call
        case RegisterDomain(_, d, chain) => before[d := chain]
        case UnregisterDomain(_, d, _) => before - {d}
        case _ => before
  }

  /** Whether the last successful call that concerns the pause of `d` paused it. */
  function CalledPaused(cfg: Config, s: State, steps: seq<Step>, d: DomainId): bool
    decreases |steps|
  {
    if steps == [] then false
    else
      var init, step := steps[..|steps| - 1], steps[|steps| - 1];
      var before := CalledPaused(cfg, s, init, d);
      if !Succeeds(cfg, Run(cfg, s, init), step) then before
      else
        match step.call
        case PauseBridge(_, e) => before || d == e
        case UnpauseBridge(_, e) => before && d != e
        case PauseAll(_) => before || d in Run(cfg, s, init).domains || d in Run(cfg, s, init).paused
        case UnpauseAll(_) => false
        case SetMpcAddress(_, _) => false
        case _ => before
  }

  lemma CallSetsAddress(cfg: Config, s: State, step: Step)
    ensures Next(cfg, s, step).mpc
            == if step.call.SetMpcAddress? && Succeeds(cfg, s, step) then step.call.address else s.mpc
  {
    if LeavesSetup(step.call) {
      OtherCallsKeepTheSetup(cfg, s, step);
    } else if Succeeds(cfg, s, step) {
      AdminSetsAddress(cfg, step.env, s, step.call);
    }
  }

  lemma AdminSetsAddress(cfg: Config, env: Env, s: State, call: Call)
    requires !LeavesSetup(call) && Dispatch(cfg, env, s, call).Success?
    ensures Dispatch(cfg, env, s, call).value.mpc == if call.SetMpcAddress? then call.address else s.mpc
  {}

  /** The registry after a successful call. */
  function RegistryAfter(s: State, call: Call): (map<DomainId, ChainId>, map<DomainId, bool>) {
    match call
    case RegisterDomain(_, d, chain) => (s.chains[d := chain], s.domains[d := true])
    case UnregisterDomain(_, d, _) => (s.chains - {d}, s.domains - {d})
    case _ => (s.chains, s.domains)
  }

  lemma CallSetsRegistry(cfg: Config, s: State, step: Step)
    requires Succeeds(cfg, s, step)
    ensures (Next(cfg, s, step).chains, Next(cfg, s, step).domains) == RegistryAfter(s, step.call)
  {
    if LeavesSetup(step.call) {
      OtherCallsKeepTheSetup(cfg, s, step);
    } else {
      AdminSetsRegistry(cfg, step.env, s, step.call);
    }
  }

  lemma AdminSetsRegistry(cfg: Config, env: Env, s: State, call: Call)
    requires !LeavesSetup(call) && Dispatch(cfg, env, s, call).Success?
    ensures var s' := Dispatch(cfg, env, s, call).value; (s'.chains, s'.domains) == RegistryAfter(s, call)
  {}

  /** Whether `d` is paused after a successful call. */
  predicate PausedAfter(s: State, call: Call, d: DomainId) {
    match call
    case PauseBridge(_, e) => Paused(s, d) || d == e
    case UnpauseBridge(_, e) => Paused(s, d) && d != e
    case PauseAll(_) => d in s.domains || d in s.paused
    case UnpauseAll(_) => false
    case SetMpcAddress(_, _) => false
    case _ => Paused(s, d)
  }

  lemma CallSetsPause(cfg: Config, s: State, step: Step, d: DomainId)
    requires Succeeds(cfg, s, step)
    ensures Paused(Next(cfg, s, step), d) <==> PausedAfter(s, step.call, d)
  {
    if LeavesSetup(step.call) {
      OtherCallsKeepTheSetup(cfg, s, step);
    } else {
      AdminSetsPause(cfg, step.env, s, step.call, d);
    }
  }

  lemma AdminSetsPause(cfg: Config, env: Env, s: State, call: Call, d: DomainId)
    requires !LeavesSetup(call) && Dispatch(cfg, env, s, call).Success?
    ensures Paused(Dispatch(cfg, env, s, call).value, d) <==> PausedAfter(s, call, d)
  {}

  /** In every run the MPC address is the argument of the last successful call that set it. */
  lemma {:induction false} AddressFollowsTheCalls(cfg: Config, balances: Ledger, steps: seq<Step>)
    ensures Run(cfg, Genesis(balances), steps).mpc == LastAddress(cfg, Genesis(balances), steps)
    decreases |steps|
  {
    if steps != [] {
      var init := steps[..|steps| - 1];
      AddressFollowsTheCalls(cfg, balances, init);
      CallSetsAddress(cfg, Run(cfg, Genesis(balances), init), steps[|steps| - 1]);
    }
  }

  /** In every run the registry holds what successful calls registered and did not remove, all of it supported. */
  lemma {:induction false} RegistryFollowsTheCalls(cfg: Config, balances: Ledger, steps: seq<Step>)
    ensures var s, registry := Run(cfg, Genesis(balances), steps), CalledRegistry(cfg, Genesis(balances), steps);
            s.chains == registry && s.domains == (map d | d in registry :: true)
    decreases |steps|
  {
    if steps != [] {
      var init, step := steps[..|steps| - 1], steps[|steps| - 1];
      RegistryFollowsTheCalls(cfg, balances, init);
      if Succeeds(cfg, Run(cfg, Genesis(balances), init), step) {
        CallSetsRegistry(cfg, Run(cfg, Genesis(balances), init), step);
      }
    }
  }

  /** In every run a domain is paused exactly when the last successful call that concerns it paused it. */
  lemma {:induction false} PausesFollowTheCalls(cfg: Config, balances: Ledger, steps: seq<Step>, d: DomainId)
    ensures Paused(Run(cfg, Genesis(balances), steps), d) <==> CalledPaused(cfg, Genesis(balances), steps, d)
    decreases |steps|
  {
    if steps != [] {
      var init, step := steps[..|steps| - 1], steps[|steps| - 1];
      PausesFollowTheCalls(cfg, balances, init, d);
      if Succeeds(cfg, Run(cfg, Genesis(balances), init), step) {
        CallSetsPause(cfg, Run(cfg, Genesis(balances), init), step, d);
      }
    }
  }
}
