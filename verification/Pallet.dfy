/** The bridge pallet on mutable storage.  Every extrinsic does what the state machine in `Bridge` says. */
module Pallet {
  import opened Prelude
  import opened Xcm
  import opened Ledgers
  import opened Eip712
  import opened Bridge
  import Bitmap
  import DepositData

  /** A call that succeeds leaves the specified state; a call that fails leaves the state it found. */
  ghost predicate Follows(s: State, outcome: Result<State, Error>, r: Result<(), Error>, s': State) {
    match outcome
    case Success(next) => r.Success? && s' == next
    case Failure(e) => r == Failure(e) && s' == s
  }

  /** How far a recipient can still forward: local deposits never do. */
  function Rank(who: MultiLocation): nat {
    if RouteOf(who).Local? then 0 else 3
  }

  lemma EverySet(domains: map<DomainId, bool>, paused: map<DomainId, bool>, flag: bool)
    ensures var once := paused + (map d | d in domains.Keys :: flag);
            once + (map d | d in once.Keys :: flag) == map d | d in domains.Keys + paused.Keys :: flag
  {}

  class BridgePallet {
    const cfg: Config
    const domain: Domain

    var counts: map<DomainId, Nonce>
    var paused: map<DomainId, bool>
    var mpc: MpcAddress
    var usedNonces: Bitmap.Words
    var domains: map<DomainId, bool>
    var chains: map<DomainId, ChainId>
    var ledger: Ledger
    var events: seq<Event>

    ghost var used: set<(DomainId, Nonce)>
    ghost var flows: seq<Flow>

    /** The bitmap holds exactly the used nonces. */
    ghost predicate Valid()
      reads this
    {
      Bitmap.Represents(usedNonces, used)
    }

    ghost function Abs(): State
      reads this
    {
      State(counts, paused, mpc, used, domains, chains, ledger, events, flows)
    }

    constructor (cfg: Config, domain: Domain, balances: Ledger)
      ensures Valid() && Abs() == Genesis(balances)
      ensures this.cfg == cfg && this.domain == domain
    {
      this.cfg, this.domain := cfg, domain;
      counts, paused, mpc, usedNonces := map[], map[], 0, map[];
      domains, chains, ledger, events := map[], map[], balances, [];
      used, flows := {}, [];
    }

    // ---- Nonces

    method IsProposalExecuted(n: Nonce, d: DomainId) returns (r: bool)
      requires Valid()
      ensures r <==> (d, n) in used
    {
      assert Bitmap.Agrees(usedNonces, used, d, n);
      r := Bitmap.TestBit(Bitmap.WordAt(usedNonces, d, n / 64), n % 64);
    }

    method SetProposalExecuted(n: Nonce, d: DomainId)
      requires Valid()
      modifies this`usedNonces, this`used
      ensures Valid() && used == old(used) + {(d, n)}
    {
      var word := Bitmap.WordAt(usedNonces, d, n / 64);
      word := Bitmap.PutBit(word, n % 64);
      Bitmap.SetRepresents(usedNonces, used, d, n);
      usedNonces := usedNonces[(d, n / 64) := word];
      used := used + {(d, n)};
    }

    // ---- Administration

    method PauseBridge(env: Env, origin: Origin, d: DomainId) returns (r: Result<(), Error>)
      requires Valid()
      modifies this`paused, this`events
      ensures Valid() && Follows(old(Abs()), PauseDomain(env, old(Abs()), origin, d), r, Abs())
    {
      if !env.hasAccess("pause_bridge", origin) { return Failure(AccessDenied); }
      if !Flag(domains, d) { return Failure(DestDomainNotSupported); }
      paused := paused[d := true];
      events := events + [DomainPaused(d)];
      return Success(());
    }

    method UnpauseBridge(env: Env, origin: Origin, d: DomainId) returns (r: Result<(), Error>)
      requires Valid()
      modifies this`paused, this`events
      ensures Valid() && Follows(old(Abs()), UnpauseDomain(env, old(Abs()), origin, d), r, Abs())
    {
      if !env.hasAccess("unpause_bridge", origin) { return Failure(AccessDenied); }
      if !Flag(domains, d) { return Failure(DestDomainNotSupported); }
      if !Flag(paused, d) { return Failure(BridgeUnpaused); }
      paused := paused[d := false];
      events := events + [DomainUnpaused(d)];
      return Success(());
    }

    /** Every registered domain, then every domain with a pause entry. */
    method SetAllDomains(flag: bool)
      requires Valid()
      modifies this`paused
      ensures Valid() && Abs() == old(Abs()).(paused := SetAll(old(Abs()), flag))
    {
      EverySet(domains, paused, flag);
      SetEach(domains.Keys, flag);
      SetEach(paused.Keys, flag);
    }

    method SetEach(keys: set<DomainId>, flag: bool)
      modifies this`paused
      ensures paused == old(paused) + map d | d in keys :: flag
    {
      var todo := keys;
      while todo != {}
        invariant todo <= keys
        invariant paused == old(paused) + map d | d in keys - todo :: flag
        decreases |todo|
      {
        var d :| d in todo;
        paused := paused[d := flag];
        todo := todo - {d};
      }
    }

    method SetMpcAddress(env: Env, origin: Origin, address: MpcAddress) returns (r: Result<(), Error>)
      requires Valid()
      modifies this`mpc, this`paused
      ensures Valid() && Follows(old(Abs()), InstallMpc(env, old(Abs()), origin, address), r, Abs())
    {
      if !env.hasAccess("set_mpc_address", origin) { return Failure(AccessDenied); }
      if !IsClear(mpc) { return Failure(MpcAddrNotUpdatable); }
      mpc := address;
      SetAllDomains(false);
      return Success(());
    }

    method RegisterDomain(env: Env, origin: Origin, d: DomainId, chain: ChainId) returns (r: Result<(), Error>)
      requires Valid()
      modifies this`domains, this`chains, this`events
      ensures Valid() && Follows(old(Abs()), Register(env, old(Abs()), origin, d, chain), r, Abs())
    {
      if !env.hasAccess("register_domain", origin) { return Failure(AccessDenied); }
      domains := domains[d := true];
      chains := chains[d := chain];
      events := events + [DomainRegistered(SenderOf(origin), d, chain)];
      return Success(());
    }

    method UnregisterDomain(env: Env, origin: Origin, d: DomainId, chain: ChainId) returns (r: Result<(), Error>)
      requires Valid()
      modifies this`domains, this`chains, this`events
      ensures Valid() && Follows(old(Abs()), Unregister(env, old(Abs()), origin, d, chain), r, Abs())
    {
      if !env.hasAccess("unregister_domain", origin) { return Failure(AccessDenied); }
      if !(Flag(domains, d) && d in chains) { return Failure(DestDomainNotSupported); }
      if chains[d] != chain { return Failure(DestChainIdNotMatch); }
      domains := domains - {d};
      chains := chains - {d};
      events := events + [DomainUnregistered(SenderOf(origin), d, chain)];
      return Success(());
    }

    method PauseAllBridges(env: Env, origin: Origin) returns (r: Result<(), Error>)
      requires Valid()
      modifies this`paused, this`events
      ensures Valid() && Follows(old(Abs()), PauseEvery(env, old(Abs()), origin), r, Abs())
    {
      if !env.hasAccess("pause_all_bridges", origin) { return Failure(AccessDenied); }
      SetAllDomains(true);
      events := events + [AllPaused(SenderOf(origin))];
      return Success(());
    }

    method UnpauseAllBridges(env: Env, origin: Origin) returns (r: Result<(), Error>)
      requires Valid()
      modifies this`paused, this`events
      ensures Valid() && Follows(old(Abs()), UnpauseEvery(env, old(Abs()), origin), r, Abs())
    {
      if !env.hasAccess("unpause_all_bridges", origin) { return Failure(AccessDenied); }
      if IsClear(mpc) { return Failure(MissingMpcAddress); }
      SetAllDomains(false);
      events := events + [AllUnpaused(SenderOf(origin))];
      return Success(());
    }

    method RetryTransfer(env: Env, origin: Origin, height: u128, d: DomainId) returns (r: Result<(), Error>)
      requires Valid()
      modifies this`events
      ensures Valid() && Follows(old(Abs()), RequestRetry(env, old(Abs()), origin, height, d), r, Abs())
    {
      if !env.hasAccess("retry", origin) { return Failure(AccessDenied); }
      if IsClear(mpc) { return Failure(MissingMpcAddress); }
      if Flag(paused, d) { return Failure(BridgePaused); }
      if !Flag(domains, d) { return Failure(DestDomainNotSupported); }
      events := events + [RetryRequested(height, d, SenderOf(origin))];
      return Success(());
    }

    // ---- The asset transactor

    method WithdrawAsset(env: Env, a: AssetId, amount: u128, who: Account) returns (ok: bool)
      modifies this`ledger
      ensures ok <==> Burn(env, old(ledger), a, amount, who).Some?
      ensures ledger == if ok then Burn(env, old(ledger), a, amount, who).value else old(ledger)
    {
      ok := env.canWithdraw(ledger, Units(a, amount), who) && amount <= Balance(ledger, a, who);
      if ok { ledger := Debit(ledger, a, who, amount); }
    }

    method MintTo(env: Env, a: AssetId, amount: u128, who: MultiLocation) returns (ok: bool)
      modifies this`ledger
      ensures ok == DepositLocally(cfg, env, old(Abs()), a, amount, who).ok
      ensures Abs() == DepositLocally(cfg, env, old(Abs()), a, amount, who).state
    {
      var account := AccountOf(cfg, who);
      ok := account.Some? && env.canDeposit(ledger, Units(a, amount), who);
      if ok { ledger := Credit(ledger, a, account.value, amount); }
    }

    /** Deposits to a location; other-world recipients re-enter `MakeDeposit`, which only deposits locally. */
    method DepositAsset(env: Env, a: AssetId, amount: u128, who: MultiLocation) returns (ok: bool)
      requires Valid()
      modifies this`counts, this`ledger, this`events, this`flows
      ensures Valid()
      ensures ok == Bridge.DepositAsset(cfg, env, old(Abs()), a, amount, who).ok
      ensures Abs() == Bridge.DepositAsset(cfg, env, old(Abs()), a, amount, who).state
      decreases Rank(who)
    {
      match RouteOf(who) {
        case Local =>
          ok := MintTo(env, a, amount, who);
        case OtherWorld =>
          var via := AccountLocation(cfg.bridgeTransit);
          ok := MintTo(env, a, amount, via);
          if ok {
            var r := MakeDeposit(env, Signed(cfg.bridgeTransit), Units(a, amount), who);
            ok := r.Success?;
            if ok { events := events + [OtherWorldForwarded(Units(a, amount), via, who)]; }
          }
        case RemoteChain =>
          var via := AccountLocation(cfg.xcmTransit);
          ok := MintTo(env, a, amount, via);
          if ok {
            ok := SendXcm(env, cfg.xcmTransit, a, amount, who);
            if ok {
              events := events + [XcmTransferSend(Units(a, amount), via, who),
                                  XcmForwarded(Units(a, amount), via, who)];
            }
          }
      }
    }

    method SendXcm(env: Env, from: Account, a: AssetId, amount: u128, dest: MultiLocation) returns (ok: bool)
      modifies this`ledger
      ensures Transfer(ledger, ok) == XcmTransfer(env, old(ledger), from, a, amount, dest)
    {
      match env.sendXcm(ledger, from, Units(a, amount), dest) {
        case Refused => ok := false;
        case Sent(holder, complete) =>
          if amount > Balance(ledger, a, from) { return false; }
          ledger := Debit(ledger, a, from, amount);
          if holder.Some? { ledger := Credit(ledger, a, holder.value, amount); }
          ok := complete;
      }
    }

    // ---- Outgoing transfers

    /** `deposit` in its storage transaction: an error restores everything written before it. */
    method MakeDeposit(env: Env, origin: Origin, asset: MultiAsset, dest: MultiLocation) returns (r: Result<(), Error>)
      requires Valid()
      modifies this`counts, this`ledger, this`events, this`flows
      ensures Valid() && Follows(old(Abs()), Deposit(cfg, env, old(Abs()), origin, asset, dest), r, Abs())
      decreases 2
    {
      var savedCounts, savedLedger, savedEvents := counts, ledger, events;
      ghost var savedFlows := flows;
      r := DepositBody(env, origin, asset, dest);
      if r.Failure? {
        counts, ledger, events := savedCounts, savedLedger, savedEvents;
        flows := savedFlows;
      }
    }

    /** The body of `deposit`; on an error the balances and the counter may already have been written. */
    method DepositBody(env: Env, origin: Origin, asset: MultiAsset, dest: MultiLocation) returns (r: Result<(), Error>)
      requires Valid()
      modifies this`counts, this`ledger, this`events, this`flows
      ensures Valid()
      ensures match TermsOf(cfg, env, old(Abs()), origin, asset, dest)
              case Success(t) => r.Success? && Abs() == Settle(old(Abs()), t)
              case Failure(e) => r == Failure(e)
      decreases 1
    {
      var quote := CheckDeposit(env, origin, asset, dest);
      if quote.Failure? { return Failure(quote.error); }
      r := CompleteDeposit(env, asset, quote.value);
    }

    method CompleteDeposit(env: Env, asset: MultiAsset, q: Quote) returns (r: Result<(), Error>)
      requires Valid() && q.fee < q.amount
      modifies this`counts, this`ledger, this`events, this`flows
      ensures Valid()
      ensures match Complete(cfg, env, old(Abs()), asset, q)
              case Success(t) => r.Success? && Abs() == Settle(old(Abs()), t)
              case Failure(e) => r == Failure(e)
      decreases 1, 1
    {
      r := TakeFunds(env, q.sender, asset, q.amount, q.fee);
      if r.Failure? { return; }
      r := AnnounceDeposit(q, asset.id);
    }

    method AnnounceDeposit(q: Quote, a: AssetId) returns (r: Result<(), Error>)
      requires q.fee < q.amount
      modifies this`counts, this`events, this`flows
      ensures var nonce := Count(old(counts), q.domain);
              var announced := cfg.convertTo(a, q.amount - q.fee);
              if nonce + 1 >= TWO_64 then r == Failure(DepositNonceOverflow)
              else if announced.None? then r == Failure(DecimalConversionFail)
              else
                && r.Success?
                && Abs() == old(Abs()).(
                     counts := old(counts)[q.domain := nonce + 1],
                     events := old(events) + [
                       DepositMade(q.domain, q.resource, nonce, q.sender,
                                   DepositData.Create(announced.value, q.recipient)),
                       FeeCollected(q.sender, q.domain, q.resource, q.fee, a)],
                     flows := old(flows) + [Outbound(q.domain, a, q.amount - q.fee, announced.value)])
    {
      var nonce := Count(counts, q.domain);
      if nonce + 1 >= TWO_64 { return Failure(DepositNonceOverflow); }
      counts := counts[q.domain := nonce + 1];
      var announced := cfg.convertTo(a, q.amount - q.fee);
      if announced.None? { return Failure(DecimalConversionFail); }
      events := events + [
        DepositMade(q.domain, q.resource, nonce, q.sender, DepositData.Create(announced.value, q.recipient)),
        FeeCollected(q.sender, q.domain, q.resource, q.fee, a)];
      flows := flows + [Outbound(q.domain, a, q.amount - q.fee, announced.value)];
      return Success(());
    }

    method CheckDeposit(env: Env, origin: Origin, asset: MultiAsset, dest: MultiLocation)
      returns (r: Result<Quote, Error>)
      ensures r == QuoteOf(cfg, env, Abs(), origin, asset, dest)
    {
      if !origin.Signed? { return Failure(BadOrigin); }
      if IsClear(mpc) { return Failure(MissingMpcAddress); }
      var target := cfg.extractDest(dest);
      if target.None? { return Failure(ExtractDestDataFailed); }
      var (recipient, destDomain) := target.value;
      if Flag(paused, destDomain) { return Failure(BridgePaused); }
      if !Flag(domains, destDomain) { return Failure(DestDomainNotSupported); }
      var bound := ExtractAsset(cfg, asset);
      if bound.None? { return Failure(AssetNotBound); }
      var (resource, amount) := bound.value;
      var fee := env.getFee(destDomain, asset);
      if fee.None? { return Failure(MissingFeeConfig); }
      if amount <= fee.value { return Failure(FeeTooExpensive); }
      return Success(Quote(origin.who, destDomain, recipient, resource, amount, fee.value));
    }

    method TakeFunds(env: Env, sender: Account, asset: MultiAsset, amount: u128, fee: u128)
      returns (r: Result<(), Error>)
      requires Valid() && fee < amount
      modifies this`counts, this`ledger, this`events, this`flows
      ensures Valid()
      ensures match MoveFunds(cfg, env, old(ledger), sender, asset, amount, fee)
              case Success((l, _)) => r.Success? && Abs() == old(Abs()).(ledger := l)
              case Failure(e) => r == Failure(e)
      decreases 1, 0
    {
      var ok := WithdrawAsset(env, asset.id, amount, sender);
      if !ok { return Failure(TransactFailed); }
      ok := DepositAsset(env, asset.id, fee, AccountLocation(cfg.feeAccount));
      if !ok { return Failure(TransactFailed); }
      var reserve := Lookup(cfg.reserveAccounts, asset.id);
      if reserve.None? { return Failure(NoLiquidityHolderAccountBound); }
      if cfg.isReserve(asset) {
        ok := DepositAsset(env, asset.id, amount - fee, AccountLocation(reserve.value));
        if !ok { return Failure(TransactFailed); }
      }
      return Success(());
    }

    // ---- Incoming proposals

    method ExecuteProposalInternal(env: Env, p: Proposal) returns (r: Result<(), Error>)
      requires Valid()
      modifies this`counts, this`ledger, this`events, this`flows
      ensures Valid()
      ensures match ClaimOf(cfg, old(Abs()), p)
              case Failure(e) => r == Failure(e) && Abs() == old(Abs())
              case Success(c) =>
                && Abs() == Pay(cfg, env, old(Abs()), c).state
                && r == (match Pay(cfg, env, old(Abs()), c).error case None => Success(()) case Some(e) => Failure(e))
    {
      if Flag(paused, p.origin) { return Failure(BridgePaused); }
      if !Flag(domains, p.origin) { return Failure(DestDomainNotSupported); }
      var executed := IsProposalExecuted(p.nonce, p.origin);
      if executed { return Failure(ProposalAlreadyComplete); }
      var asset := AssetFor(cfg.resources, p.resource);
      if asset.None? { return Failure(AssetNotBound); }
      var data := DepositData.Extract(cfg.decodeLocation, p.data);
      if data.None? { return Failure(InvalidDepositData); }
      var amount := cfg.convertFrom(asset.value, data.value.0);
      if amount.None? { return Failure(DecimalConversionFail); }
      var reserve := Lookup(cfg.reserveAccounts, asset.value);
      if reserve.None? { return Failure(NoLiquidityHolderAccountBound); }
      var reserved := cfg.isReserve(Units(asset.value, amount.value));
      if reserved {
        var taken := WithdrawAsset(env, asset.value, amount.value, reserve.value);
        if !taken { return Failure(TransactFailed); }
      }
      var ok := DepositAsset(env, asset.value, amount.value, data.value.1);
      if !ok {
        if reserved { flows := flows + [Stranded(asset.value, amount.value)]; }
        return Failure(TransactFailed);
      }
      return Success(());
    }

    /** One turn of the batch loop: execute, then mark and report, or report the error. */
    method ExecuteOneOf(env: Env, p: Proposal)
      requires Valid()
      modifies this`counts, this`ledger, this`events, this`flows, this`usedNonces, this`used
      ensures Valid() && Abs() == ExecuteOne(cfg, env, old(Abs()), p)
    {
      ghost var claim := ClaimOf(cfg, Abs(), p);
      var r := ExecuteProposalInternal(env, p);
      if r.Failure? {
        events := events + [FailedHandlerExecution(r.error, p.origin, p.nonce)];
      } else {
        SetProposalExecuted(p.nonce, p.origin);
        events := events + [ProposalExecution(p.origin, p.nonce, cfg.keccak(p.data + cfg.palletTag))];
        flows := flows + [Inbound(p, claim.value.asset, claim.value.amount, claim.value.to)];
      }
    }

    method ExecuteProposal(env: Env, ps: seq<Proposal>, signature: Bytes) returns (r: Result<(), Error>)
      requires Valid()
      requires cfg.message(ps) == SigningMessage(cfg.keccak, domain, ps)
      modifies this`counts, this`ledger, this`events, this`flows, this`usedNonces, this`used
      ensures Valid() && Follows(old(Abs()), ExecuteProposals(cfg, env, old(Abs()), ps, signature), r, Abs())
    {
      if IsClear(mpc) { return Failure(MissingMpcAddress); }
      if ps == [] { return Failure(EmptyProposalList); }
      var message := ConstructSigningMessage(cfg.keccak, domain, ps);
      if !env.verifies(message, signature, mpc) { return Failure(BadMpcSignature); }
      ExecuteEach(env, ps);
      return Success(());
    }

    method ExecuteEach(env: Env, ps: seq<Proposal>)
      requires Valid()
      modifies this`counts, this`ledger, this`events, this`flows, this`usedNonces, this`used
      ensures Valid() && Abs() == ExecuteAll(cfg, env, old(Abs()), ps)
    {
      for i := 0 to |ps|
        invariant Valid() && Abs() == ExecuteAll(cfg, env, old(Abs()), ps[..i])
      {
        ExecuteOneOf(env, ps[i]);
        assert ps[..i + 1][..i] == ps[..i];
      }
      assert ps[..|ps|] == ps;
    }

    // ---- All extrinsics

    /** A call of the pallet's administration. */
    method Administer(env: Env, call: Call) returns (r: Result<(), Error>)
      requires Valid() && !call.Elsewhere? && !call.MakeDeposit? && !call.Execute?
      modifies this
      ensures Valid() && Follows(old(Abs()), Dispatch(cfg, env, old(Abs()), call), r, Abs())
    {
      match call {
        case PauseBridge(origin, d) => r := PauseBridge(env, origin, d);
        case UnpauseBridge(origin, d) => r := UnpauseBridge(env, origin, d);
        case SetMpcAddress(origin, address) => r := SetMpcAddress(env, origin, address);
        case RegisterDomain(origin, d, chain) => r := RegisterDomain(env, origin, d, chain);
        case UnregisterDomain(origin, d, chain) => r := UnregisterDomain(env, origin, d, chain);
        case Retry(origin, height, d) => r := RetryTransfer(env, origin, height, d);
        case PauseAll(origin) => r := PauseAllBridges(env, origin);
        case UnpauseAll(origin) => r := UnpauseAllBridges(env, origin);
      }
    }

    /**
     * Any call of the pallet is one step of the state machine, errors included, so everything proved of its runs
     * holds here.
     */
    method Perform(env: Env, call: Call) returns (r: Result<(), Error>)
      requires Valid() && !call.Elsewhere?
      requires call.Execute? ==> cfg.message(call.proposals) == SigningMessage(cfg.keccak, domain, call.proposals)
      modifies this
      ensures Valid() && Follows(old(Abs()), Dispatch(cfg, env, old(Abs()), call), r, Abs())
      ensures Abs() == Next(cfg, old(Abs()), Step(env, call))
    {
      if call.MakeDeposit? {
        r := MakeDeposit(env, call.origin, call.asset, call.dest);
      } else if call.Execute? {
        r := ExecuteProposal(env, call.proposals, call.signature);
      } else {
        r := Administer(env, call);
      }
    }
  }
}
