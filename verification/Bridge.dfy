/**
 * The bridge pallet as a state machine over values: what every extrinsic does to the pallet's storage,
 * to balances and to the event log.  `Pallet` implements it on mutable storage.
 */
module Bridge {
  import opened Prelude
  import opened Xcm
  import opened Ledgers
  import opened Eip712
  import opened SygmaRuntime
  import DepositData

  /** A 20-byte address, read as a number; the clear address is zero. */
  type MpcAddress = nat
  type ChainId = u256

  datatype Error =
    | BadOrigin | AccessDenied | BadMpcSignature | TransactFailed | FeeTooExpensive | MissingMpcAddress
    | MpcAddrNotUpdatable | BridgePaused | BridgeUnpaused | MissingFeeConfig | AssetNotBound
    | ProposalAlreadyComplete | EmptyProposalList | InvalidDepositData | DestDomainNotSupported
    | DestChainIdNotMatch | ExtractDestDataFailed | DecimalConversionFail | DepositNonceOverflow
    | NoLiquidityHolderAccountBound

  datatype Event =
    | DepositMade(destDomain: DomainId, resource: ResourceId, nonce: Nonce, sender: Account, data: Bytes)
    | ProposalExecution(originDomain: DomainId, executedNonce: Nonce, dataHash: Bytes32)
    | FailedHandlerExecution(error: Error, failedDomain: DomainId, failedNonce: Nonce)
    | RetryRequested(height: u128, retryDomain: DomainId, requester: Account)
    | DomainPaused(paused: DomainId)
    | DomainUnpaused(unpaused: DomainId)
    | DomainRegistered(registrar: Account, registered: DomainId, chain: ChainId)
    | DomainUnregistered(remover: Account, removed: DomainId, oldChain: ChainId)
    | FeeCollected(payer: Account, feeDomain: DomainId, feeResource: ResourceId, fee: u128, feeAsset: AssetId)
    | AllPaused(pauser: Account)
    | AllUnpaused(unpauser: Account)
    | XcmTransferSend(sent: MultiAsset, sentFrom: MultiLocation, sentTo: MultiLocation)
    | XcmForwarded(relayed: MultiAsset, relayedFrom: MultiLocation, relayedTo: MultiLocation)
    | OtherWorldForwarded(forwarded: MultiAsset, forwardedFrom: MultiLocation, forwardedTo: MultiLocation)

  /**
   * History of value crossing the bridge: what a deposit took in and announced, what an executed
   * proposal paid out, and what a failed proposal had already taken from the reserve.
   */
  datatype Flow =
    | Outbound(outDomain: DomainId, outAsset: AssetId, locked: u128, announced: u128)
    | Inbound(proposal: Proposal, inAsset: AssetId, released: u128, to: MultiLocation)
    | Stranded(strandedAsset: AssetId, stranded: u128)

  datatype State = State(
    counts: map<DomainId, Nonce>,
    paused: map<DomainId, bool>,
    mpc: MpcAddress,
    used: set<(DomainId, Nonce)>,
    domains: map<DomainId, bool>,
    chains: map<DomainId, ChainId>,
    ledger: Ledger,
    events: seq<Event>,
    flows: seq<Flow>)

  datatype Config = Config(
    reserveAccounts: map<AssetId, Account>,
    feeAccount: Account,
    resources: seq<(AssetId, ResourceId)>,
    isReserve: MultiAsset -> bool,
    convertTo: (AssetId, u128) -> Option<u128>,
    convertFrom: (AssetId, u128) -> Option<u128>,
    message: seq<Proposal> -> Bytes32,
    keccak: Keccak,
    palletTag: Bytes,
    extractDest: MultiLocation -> Option<(Bytes, DomainId)>,
    decodeLocation: DepositData.LocationDecoder,
    sovereign: MultiLocation -> Option<Account>,
    bridgeTransit: Account,
    xcmTransit: Account)

  /**
   * What the XCM bridge does here with an asset it is asked to send: nothing, or take the amount from the
   * origin account and either hold it for another chain or burn it; the program may still stop half-way.
   */
  datatype XcmOutcome = Refused | Sent(holder: Option<Account>, complete: bool)

  /**
   * Everything a call consults outside the bridge, chosen afresh for every call: access grants, fees,
   * whether a balance operation or an XCM program is let through, and signature recovery.
   */
  datatype Env = Env(
    hasAccess: (string, Origin) -> bool,
    getFee: (DomainId, MultiAsset) -> Option<u128>,
    canWithdraw: (Ledger, MultiAsset, Account) -> bool,
    canDeposit: (Ledger, MultiAsset, MultiLocation) -> bool,
    sendXcm: (Ledger, Account, MultiAsset, MultiLocation) -> XcmOutcome,
    verifies: (Bytes32, Bytes, MpcAddress) -> bool)

  // ---- Reading storage

  /** Storage maps of flags and counters default to false and zero. */
  function Flag(m: map<DomainId, bool>, d: DomainId): bool {
    d in m && m[d]
  }

  function Count(m: map<DomainId, Nonce>, d: DomainId): Nonce {
    if d in m then m[d] else 0
  }

  function IsClear(a: MpcAddress): bool {
    a == 0
  }

  function SenderOf(origin: Origin): Account {
    if origin.Signed? then origin.who else 0
  }

  // ---- The asset transactor

  function AccountOf(cfg: Config, loc: MultiLocation): Option<Account> {
    if loc.parents == 0 && |loc.interior| == 1 && loc.interior[0].AccountId32?
    then Some(loc.interior[0].id)
    else cfg.sovereign(loc)
  }

  function Units(a: AssetId, amount: u128): MultiAsset {
    MultiAsset(a, Fungible(amount))
  }

  function Burn(env: Env, l: Ledger, a: AssetId, amount: u128, who: Account): Option<Ledger> {
    if env.canWithdraw(l, Units(a, amount), who) && amount <= Balance(l, a, who)
    then Some(Debit(l, a, who, amount)) else None
  }

  function Mint(cfg: Config, env: Env, l: Ledger, a: AssetId, amount: u128, to: MultiLocation): Option<Ledger> {
    var who := AccountOf(cfg, to);
    if who.Some? && env.canDeposit(l, Units(a, amount), to)
    then Some(Credit(l, a, who.value, amount)) else None
  }

  datatype Route = Local | OtherWorld | RemoteChain

  /** Which way a recipient is served. */
  function RouteOf(who: MultiLocation): Route {
    if |who.interior| == 1 && ((who.parents == 0 && (who.interior[0].AccountId32? || who.interior[0].AccountKey20?))
                               || (who.parents == 1 && who.interior[0].Parachain?))
    then Local
    else if |who.interior| == 4 && who.interior[0] == Key(SYGMA) && who.interior[1] == Key(SYGMA_BRIDGE)
            && who.interior[2].GeneralIndex? && who.interior[3].GeneralKey?
    then OtherWorld
    else RemoteChain
  }

  datatype Transfer = Transfer(ledger: Ledger, ok: bool)

  function XcmTransfer(env: Env, l: Ledger, from: Account, a: AssetId, amount: u128, dest: MultiLocation): Transfer {
    match env.sendXcm(l, from, Units(a, amount), dest)
    case Refused => Transfer(l, false)
    case Sent(holder, complete) =>
      if amount > Balance(l, a, from) then Transfer(l, false)
      else
        var debited := Debit(l, a, from, amount);
        Transfer(if holder.Some? then Credit(debited, a, holder.value, amount) else debited, complete)
  }

  datatype Attempt = Attempt(state: State, ok: bool)

  function DepositLocally(cfg: Config, env: Env, s: State, a: AssetId, amount: u128, who: MultiLocation): Attempt {
    match Mint(cfg, env, s.ledger, a, amount, who)
    case None => Attempt(s, false)
    case Some(l) => Attempt(s.(ledger := l), true)
  }

  /** Other-world recipients: credit the transit account, which then makes a deposit of its own. */
  function ForwardToBridge(cfg: Config, env: Env, s: State, a: AssetId, amount: u128, who: MultiLocation): Attempt {
    var via := AccountLocation(cfg.bridgeTransit);
    var credited := DepositLocally(cfg, env, s, a, amount, via);
    if !credited.ok then credited
    else
      match Deposit(cfg, env, credited.state, Signed(cfg.bridgeTransit), Units(a, amount), who)
      case Failure(_) => Attempt(credited.state, false)
      case Success(s') => Attempt(s'.(events := s'.events + [OtherWorldForwarded(Units(a, amount), via, who)]), true)
  }

  /** Recipients on other chains: credit the transit account, which then sends an XCM program. */
  function ForwardToXcm(cfg: Config, env: Env, s: State, a: AssetId, amount: u128, who: MultiLocation): Attempt {
    var via := AccountLocation(cfg.xcmTransit);
    var credited := DepositLocally(cfg, env, s, a, amount, via);
    if !credited.ok then credited
    else
      var sent := XcmTransfer(env, credited.state.ledger, cfg.xcmTransit, a, amount, who);
      if !sent.ok then Attempt(s.(ledger := sent.ledger), false)
      else Attempt(s.(ledger := sent.ledger,
                      events := s.events + [XcmTransferSend(Units(a, amount), via, who),
                                            XcmForwarded(Units(a, amount), via, who)]), true)
  }

  /** Depositing to any location.  A transit account keeps what it was credited when the onward leg fails. */
  function DepositAsset(cfg: Config, env: Env, s: State, a: AssetId, amount: u128, who: MultiLocation): Attempt {
    match RouteOf(who)
    case Local => DepositLocally(cfg, env, s, a, amount, who)
    case OtherWorld => ForwardToBridge(cfg, env, s, a, amount, who)
    case RemoteChain => ForwardToXcm(cfg, env, s, a, amount, who)
  }

  // ---- Outgoing transfers

  function ExtractAsset(cfg: Config, asset: MultiAsset): Option<(ResourceId, u128)> {
    if asset.fun.NonFungible? then None
    else
      match FirstMatch<AssetId, ResourceId>(cfg.resources, asset.id)
      case None => None
      case Some(resource) => Some((resource, asset.fun.amount))
  }

  datatype Terms = Terms(sender: Account, domain: DomainId, recipient: Bytes, resource: ResourceId, asset: AssetId,
                         amount: u128, fee: u128, reserve: Account, ledger: Ledger, announced: u128)

  function Lookup<K, V>(m: map<K, V>, k: K): Option<V> {
    if k in m then Some(m[k]) else None
  }

  datatype Quote = Quote(sender: Account, domain: DomainId, recipient: Bytes, resource: ResourceId, amount: u128,
                         fee: u128)

  /** The checks before funds move. */
  function QuoteOf(cfg: Config, env: Env, s: State, origin: Origin, asset: MultiAsset, dest: MultiLocation)
    : (r: Result<Quote, Error>)
    ensures r.Success? ==>
              && var q := r.value;
              && origin == Signed(q.sender) && !IsClear(s.mpc)
              && cfg.extractDest(dest) == Some((q.recipient, q.domain))
              && !Flag(s.paused, q.domain) && Flag(s.domains, q.domain)
              && asset.fun == Fungible(q.amount)
              && FirstMatch<AssetId, ResourceId>(cfg.resources, asset.id) == Some(q.resource)
              && env.getFee(q.domain, asset) == Some(q.fee) && q.fee < q.amount
  {
    var sender :- (if origin.Signed? then Success(origin.who) else Failure(BadOrigin));
    var _ :- Ensure(!IsClear(s.mpc), MissingMpcAddress);
    var (recipient, domain) :- cfg.extractDest(dest).OkOr(ExtractDestDataFailed);
    var _ :- Ensure(!Flag(s.paused, domain), BridgePaused);
    var _ :- Ensure(Flag(s.domains, domain), DestDomainNotSupported);
    var (resource, amount) :- ExtractAsset(cfg, asset).OkOr(AssetNotBound);
    var fee :- env.getFee(domain, asset).OkOr(MissingFeeConfig);
    var _ :- Ensure(amount > fee, FeeTooExpensive);
    Success(Quote(sender, domain, recipient, resource, amount, fee))
  }

  /** Taking the amount from the sender: fee to the treasury, the rest to the reserve of a reserved asset. */
  function MoveFunds(cfg: Config, env: Env, l: Ledger, sender: Account, asset: MultiAsset, amount: u128, fee: u128)
    : (r: Result<(Ledger, Account), Error>)
    requires fee < amount
    ensures r.Success? ==>
              && Lookup(cfg.reserveAccounts, asset.id) == Some(r.value.1)
              && amount <= Balance(l, asset.id, sender)
              && (var burnt := Debit(l, asset.id, sender, amount);
                  var taxed := Credit(burnt, asset.id, cfg.feeAccount, fee);
                  r.value.0 == if cfg.isReserve(asset) then Credit(taxed, asset.id, r.value.1, amount - fee) else taxed)
  {
    var burnt :- Burn(env, l, asset.id, amount, sender).OkOr(TransactFailed);
    var taxed :- Mint(cfg, env, burnt, asset.id, fee, AccountLocation(cfg.feeAccount)).OkOr(TransactFailed);
    var reserve :- Lookup(cfg.reserveAccounts, asset.id).OkOr(NoLiquidityHolderAccountBound);
    var held :- (if cfg.isReserve(asset)
                 then Mint(cfg, env, taxed, asset.id, amount - fee, AccountLocation(reserve)).OkOr(TransactFailed)
                 else Success(taxed));
    Success((held, reserve))
  }

  /** Every check of a deposit in order, and the balances it would leave behind. */
  function TermsOf(cfg: Config, env: Env, s: State, origin: Origin, asset: MultiAsset, dest: MultiLocation)
    : (r: Result<Terms, Error>)
    ensures r.Success? ==>
              && var t := r.value;
              && origin == Signed(t.sender) && !IsClear(s.mpc)
              && cfg.extractDest(dest) == Some((t.recipient, t.domain))
              && !Flag(s.paused, t.domain) && Flag(s.domains, t.domain)
              && asset == Units(t.asset, t.amount)
              && FirstMatch<AssetId, ResourceId>(cfg.resources, t.asset) == Some(t.resource)
              && env.getFee(t.domain, asset) == Some(t.fee) && t.fee < t.amount
              && Lookup(cfg.reserveAccounts, t.asset) == Some(t.reserve)
              && Count(s.counts, t.domain) + 1 < TWO_64
              && cfg.convertTo(t.asset, t.amount - t.fee) == Some(t.announced)
              && t.amount <= Balance(s.ledger, t.asset, t.sender)
              && (var burnt := Debit(s.ledger, t.asset, t.sender, t.amount);
                  var taxed := Credit(burnt, t.asset, cfg.feeAccount, t.fee);
                  t.ledger
                  == if cfg.isReserve(asset) then Credit(taxed, t.asset, t.reserve, t.amount - t.fee) else taxed)
  {
    var q :- QuoteOf(cfg, env, s, origin, asset, dest);
    Complete(cfg, env, s, asset, q)
  }

  /** The remaining steps, once the quote is made. */
  function Complete(cfg: Config, env: Env, s: State, asset: MultiAsset, q: Quote): (r: Result<Terms, Error>)
    requires q.fee < q.amount
    ensures r.Success? ==> Count(s.counts, r.value.domain) + 1 < TWO_64 && r.value.fee < r.value.amount
  {
    var (ledger, reserve) :- MoveFunds(cfg, env, s.ledger, q.sender, asset, q.amount, q.fee);
    var _ :- Ensure(Count(s.counts, q.domain) + 1 < TWO_64, DepositNonceOverflow);
    var announced :- cfg.convertTo(asset.id, q.amount - q.fee).OkOr(DecimalConversionFail);
    Success(Terms(q.sender, q.domain, q.recipient, q.resource, asset.id, q.amount, q.fee, reserve, ledger, announced))
  }

  /** The state after a deposit on the given terms. */
  function Settle(s: State, t: Terms): State
    requires Count(s.counts, t.domain) + 1 < TWO_64 && t.fee < t.amount
  {
    var nonce := Count(s.counts, t.domain);
    s.(counts := s.counts[t.domain := nonce + 1],
       ledger := t.ledger,
       events := s.events + [
         DepositMade(t.domain, t.resource, nonce, t.sender, DepositData.Create(t.announced, t.recipient)),
         FeeCollected(t.sender, t.domain, t.resource, t.fee, t.asset)],
       flows := s.flows + [Outbound(t.domain, t.asset, t.amount - t.fee, t.announced)])
  }

  function Deposit(cfg: Config, env: Env, s: State, origin: Origin, asset: MultiAsset, dest: MultiLocation)
    : Result<State, Error>
  {
    var t :- TermsOf(cfg, env, s, origin, asset, dest);
    Success(Settle(s, t))
  }

  // ---- Incoming proposals

  function AssetFor(resources: seq<(AssetId, ResourceId)>, resource: ResourceId): Option<AssetId> {
    if resources == [] then None
    else if resources[0].1 == resource then Some(resources[0].0)
    else AssetFor(resources[1..], resource)
  }

  datatype Claim = Claim(asset: AssetId, amount: u128, to: MultiLocation, reserve: Account)

  /** Every check of a proposal before value moves, and what it asks for. */
  function ClaimOf(cfg: Config, s: State, p: Proposal): (r: Result<Claim, Error>)
    ensures r.Success? ==>
              && var c := r.value;
              && !Flag(s.paused, p.origin) && Flag(s.domains, p.origin) && (p.origin, p.nonce) !in s.used
              && AssetFor(cfg.resources, p.resource) == Some(c.asset)
              && Lookup(cfg.reserveAccounts, c.asset) == Some(c.reserve)
              && (var data := DepositData.Extract(cfg.decodeLocation, p.data);
                  && data.Some? && data.value.1 == c.to
                  && data.value.0 == DepositData.AmountWord(p.data)
                  && cfg.convertFrom(c.asset, data.value.0) == Some(c.amount))
  {
    var _ :- Ensure(!Flag(s.paused, p.origin), BridgePaused);
    var _ :- Ensure(Flag(s.domains, p.origin), DestDomainNotSupported);
    var _ :- Ensure((p.origin, p.nonce) !in s.used, ProposalAlreadyComplete);
    var asset :- AssetFor(cfg.resources, p.resource).OkOr(AssetNotBound);
    var (amount, to) :- DepositData.Extract(cfg.decodeLocation, p.data).OkOr(InvalidDepositData);
    var converted :- cfg.convertFrom(asset, amount).OkOr(DecimalConversionFail);
    var reserve :- Lookup(cfg.reserveAccounts, asset).OkOr(NoLiquidityHolderAccountBound);
    Success(Claim(asset, converted, to, reserve))
  }

  datatype Payout = Payout(state: State, error: Option<Error>)

  /** First leg: a reserved asset leaves the reserve account. */
  function Withdraw(cfg: Config, env: Env, s: State, c: Claim): Option<State> {
    if !cfg.isReserve(Units(c.asset, c.amount)) then Some(s)
    else
      match Burn(env, s.ledger, c.asset, c.amount, c.reserve)
      case None => None
      case Some(l) => Some(s.(ledger := l))
  }

  /** Second leg: the asset goes to the recipient. */
  function Deliver(cfg: Config, env: Env, s: State, c: Claim): Payout {
    var r := DepositAsset(cfg, env, s, c.asset, c.amount, c.to);
    if r.ok then Payout(r.state, None)
    else if cfg.isReserve(Units(c.asset, c.amount))
    then Payout(r.state.(flows := r.state.flows + [Stranded(c.asset, c.amount)]), Some(TransactFailed))
    else Payout(r.state, Some(TransactFailed))
  }

  /** Paying a claim out.  A failure of the second leg does not undo the first. */
  function Pay(cfg: Config, env: Env, s: State, c: Claim): Payout {
    match Withdraw(cfg, env, s, c)
    case None => Payout(s, Some(TransactFailed))
    case Some(s1) => Deliver(cfg, env, s1, c)
  }

  function Failed(s: State, p: Proposal, e: Error): State {
    s.(events := s.events + [FailedHandlerExecution(e, p.origin, p.nonce)])
  }

  function Executed(cfg: Config, s: State, p: Proposal, c: Claim): State {
    s.(used := s.used + {(p.origin, p.nonce)},
       events := s.events + [ProposalExecution(p.origin, p.nonce, cfg.keccak(p.data + cfg.palletTag))],
       flows := s.flows + [Inbound(p, c.asset, c.amount, c.to)])
  }

  /** One proposal of a batch: its error is reported, never propagated. */
  function ExecuteOne(cfg: Config, env: Env, s: State, p: Proposal): State {
    match ClaimOf(cfg, s, p)
    case Failure(e) => Failed(s, p, e)
    case Success(c) =>
      var paid := Pay(cfg, env, s, c);
      if paid.error.Some? then Failed(paid.state, p, paid.error.value)
      else Executed(cfg, paid.state, p, c)
  }

  function ExecuteAll(cfg: Config, env: Env, s: State, ps: seq<Proposal>): State
    decreases |ps|
  {
    if ps == [] then s else ExecuteOne(cfg, env, ExecuteAll(cfg, env, s, ps[..|ps| - 1]), ps[|ps| - 1])
  }

  function ExecuteProposals(cfg: Config, env: Env, s: State, ps: seq<Proposal>, signature: Bytes)
    : Result<State, Error>
  {
    var _ :- Ensure(!IsClear(s.mpc), MissingMpcAddress);
    var _ :- Ensure(ps != [], EmptyProposalList);
    var _ :- Ensure(env.verifies(cfg.message(ps), signature, s.mpc), BadMpcSignature);
    Success(ExecuteAll(cfg, env, s, ps))
  }

  // ---- Administration

  /** Every registered domain and every domain that ever had a pause entry. */
  function SetAll(s: State, flag: bool): map<DomainId, bool> {
    map d | d in s.domains.Keys + s.paused.Keys :: flag
  }

  function PauseDomain(env: Env, s: State, origin: Origin, d: DomainId): Result<State, Error> {
    var _ :- Ensure(env.hasAccess("pause_bridge", origin), AccessDenied);
    var _ :- Ensure(Flag(s.domains, d), DestDomainNotSupported);
    Success(s.(paused := s.paused[d := true], events := s.events + [DomainPaused(d)]))
  }

  function UnpauseDomain(env: Env, s: State, origin: Origin, d: DomainId): Result<State, Error> {
    var _ :- Ensure(env.hasAccess("unpause_bridge", origin), AccessDenied);
    var _ :- Ensure(Flag(s.domains, d), DestDomainNotSupported);
    var _ :- Ensure(Flag(s.paused, d), BridgeUnpaused);
    Success(s.(paused := s.paused[d := false], events := s.events + [DomainUnpaused(d)]))
  }

  function InstallMpc(env: Env, s: State, origin: Origin, address: MpcAddress): Result<State, Error> {
    var _ :- Ensure(env.hasAccess("set_mpc_address", origin), AccessDenied);
    var _ :- Ensure(IsClear(s.mpc), MpcAddrNotUpdatable);
    Success(s.(mpc := address, paused := SetAll(s, false)))
  }

  function Register(env: Env, s: State, origin: Origin, d: DomainId, chain: ChainId): Result<State, Error> {
    var _ :- Ensure(env.hasAccess("register_domain", origin), AccessDenied);
    Success(s.(domains := s.domains[d := true], chains := s.chains[d := chain],
               events := s.events + [DomainRegistered(SenderOf(origin), d, chain)]))
  }

  function Unregister(env: Env, s: State, origin: Origin, d: DomainId, chain: ChainId): Result<State, Error> {
    var _ :- Ensure(env.hasAccess("unregister_domain", origin), AccessDenied);
    var _ :- Ensure(Flag(s.domains, d) && d in s.chains, DestDomainNotSupported);
    var _ :- Ensure(s.chains[d] == chain, DestChainIdNotMatch);
    Success(s.(domains := s.domains - {d}, chains := s.chains - {d},
               events := s.events + [DomainUnregistered(SenderOf(origin), d, chain)]))
  }

  function RequestRetry(env: Env, s: State, origin: Origin, height: u128, d: DomainId): Result<State, Error> {
    var _ :- Ensure(env.hasAccess("retry", origin), AccessDenied);
    var _ :- Ensure(!IsClear(s.mpc), MissingMpcAddress);
    var _ :- Ensure(!Flag(s.paused, d), BridgePaused);
    var _ :- Ensure(Flag(s.domains, d), DestDomainNotSupported);
    Success(s.(events := s.events + [RetryRequested(height, d, SenderOf(origin))]))
  }

  function PauseEvery(env: Env, s: State, origin: Origin): Result<State, Error> {
    var _ :- Ensure(env.hasAccess("pause_all_bridges", origin), AccessDenied);
    Success(s.(paused := SetAll(s, true), events := s.events + [AllPaused(SenderOf(origin))]))
  }

  function UnpauseEvery(env: Env, s: State, origin: Origin): Result<State, Error> {
    var _ :- Ensure(env.hasAccess("unpause_all_bridges", origin), AccessDenied);
    var _ :- Ensure(!IsClear(s.mpc), MissingMpcAddress);
    Success(s.(paused := SetAll(s, false), events := s.events + [AllUnpaused(SenderOf(origin))]))
  }

  // ---- Runs

  datatype Call =
    | PauseBridge(origin: Origin, domain: DomainId)
    | UnpauseBridge(origin: Origin, domain: DomainId)
    | SetMpcAddress(origin: Origin, address: MpcAddress)
    | RegisterDomain(origin: Origin, domain: DomainId, chain: ChainId)
    | UnregisterDomain(origin: Origin, domain: DomainId, chain: ChainId)
    | MakeDeposit(origin: Origin, asset: MultiAsset, dest: MultiLocation)
    | Retry(origin: Origin, height: u128, domain: DomainId)
    | Execute(proposals: seq<Proposal>, signature: Bytes)
    | PauseAll(origin: Origin)
    | UnpauseAll(origin: Origin)
    | Elsewhere(balances: Ledger)  // any other activity on the chain: balances move, the bridge does not act

  /** The outcome of one call: the new state, or the error of a call that changes nothing. */
  function Dispatch(cfg: Config, env: Env, s: State, call: Call): Result<State, Error> {
    match call
    case PauseBridge(origin, d) => PauseDomain(env, s, origin, d)
    case UnpauseBridge(origin, d) => UnpauseDomain(env, s, origin, d)
    case SetMpcAddress(origin, address) => InstallMpc(env, s, origin, address)
    case RegisterDomain(origin, d, chain) => Register(env, s, origin, d, chain)
    case UnregisterDomain(origin, d, chain) => Unregister(env, s, origin, d, chain)
    case MakeDeposit(origin, asset, dest) => Deposit(cfg, env, s, origin, asset, dest)
    case Retry(origin, height, d) => RequestRetry(env, s, origin, height, d)
    case Execute(ps, signature) => ExecuteProposals(cfg, env, s, ps, signature)
    case PauseAll(origin) => PauseEvery(env, s, origin)
    case UnpauseAll(origin) => UnpauseEvery(env, s, origin)
    case Elsewhere(balances) => Success(s.(ledger := balances))
  }

  datatype Step = Step(env: Env, call: Call)

  function Next(cfg: Config, s: State, step: Step): State {
    var r := Dispatch(cfg, step.env, s, step.call);
    if r.Success? then r.value else s
  }

  function Run(cfg: Config, s: State, steps: seq<Step>): State
    decreases |steps|
  {
    if steps == [] then s else Next(cfg, Run(cfg, s, steps[..|steps| - 1]), steps[|steps| - 1])
  }

  /** The pallet before any call; balances are whatever the chain starts with. */
  function Genesis(balances: Ledger): State {
    State(map[], map[], 0, {}, map[], map[], balances, [], [])
  }
}
