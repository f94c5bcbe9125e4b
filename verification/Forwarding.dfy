/** Transfers that pass through: a deposit addressed beyond this chain. */
module Forwarding {
  import opened Prelude
  import opened Xcm
  import opened Ledgers
  import opened Bridge
  import opened SygmaRuntime
  import XcmBridge
  import DepositData

  /** The terms of the nested deposit. */
  function NestedTerms(cfg: Config, env: Env, s: State, a: AssetId, amount: u128, who: MultiLocation)
    : Result<Terms, Error>
  {
    TermsOf(cfg, env, DepositLocally(cfg, env, s, a, amount, AccountLocation(cfg.bridgeTransit)).state,
            Signed(cfg.bridgeTransit), Units(a, amount), who)
  }

  lemma ReportedSettlement(s: State, t: Terms, e: Event)
    requires Count(s.counts, t.domain) + 1 < TWO_64 && t.fee < t.amount
    ensures Settle(s, t).events + [e] == s.events + [
              DepositMade(t.domain, t.resource, Count(s.counts, t.domain), t.sender,
                          DepositData.Create(t.announced, t.recipient)),
              FeeCollected(t.sender, t.domain, t.resource, t.fee, t.asset), e]
  {}

  lemma NestedState(cfg: Config, env: Env, s: State, a: AssetId, amount: u128, who: MultiLocation)
    requires RouteOf(who).OtherWorld? && DepositAsset(cfg, env, s, a, amount, who).ok
    ensures NestedTerms(cfg, env, s, a, amount, who).Success?
    ensures var s1 := s.(ledger := Credit(s.ledger, a, cfg.bridgeTransit, amount));
            var t := NestedTerms(cfg, env, s, a, amount, who).value;
            var via := AccountLocation(cfg.bridgeTransit);
            && t.sender == cfg.bridgeTransit && t.amount == amount && t.asset == a && t.fee < amount
            && Count(s.counts, t.domain) + 1 < TWO_64
            && DepositAsset(cfg, env, s, a, amount, who).state
               == Settle(s1, t).(events := Settle(s1, t).events + [OtherWorldForwarded(Units(a, amount), via, who)])
  {}

  /**
   * A forwarded deposit nests exactly one bridge deposit, made by the transit account for the whole amount, and is
   * reported after that deposit's own two events.
   */
  lemma ForwardingNestsOneDeposit(cfg: Config, env: Env, s: State, a: AssetId, amount: u128, who: MultiLocation)
    requires RouteOf(who).OtherWorld? && DepositAsset(cfg, env, s, a, amount, who).ok
    ensures NestedTerms(cfg, env, s, a, amount, who).Success?
    ensures var s' := DepositAsset(cfg, env, s, a, amount, who).state;
            var t := NestedTerms(cfg, env, s, a, amount, who).value;
            && t.sender == cfg.bridgeTransit && t.amount == amount && t.asset == a && t.fee < amount
            && s'.counts == s.counts[t.domain := Count(s.counts, t.domain) + 1]
            && s'.events == s.events + [
                 DepositMade(t.domain, t.resource, Count(s.counts, t.domain), cfg.bridgeTransit,
                             DepositData.Create(t.announced, t.recipient)),
                 FeeCollected(cfg.bridgeTransit, t.domain, t.resource, t.fee, a),
                 OtherWorldForwarded(Units(a, amount), AccountLocation(cfg.bridgeTransit), who)]
  {
    NestedState(cfg, env, s, a, amount, who);
    var s1 := s.(ledger := Credit(s.ledger, a, cfg.bridgeTransit, amount));
    ReportedSettlement(s1, NestedTerms(cfg, env, s, a, amount, who).value,
                       OtherWorldForwarded(Units(a, amount), AccountLocation(cfg.bridgeTransit), who));
  }

  /**
   * Whatever accounts coincide, a forwarded deposit leaves the transit account where it was, gives the treasury the
   * fee and the reserve the rest, and touches nobody else.
   */
  lemma ForwardingPassesThrough(cfg: Config, env: Env, s: State, a: AssetId, amount: u128, who: MultiLocation,
                                b: AssetId, x: Account)
    requires RouteOf(who).OtherWorld? && DepositAsset(cfg, env, s, a, amount, who).ok
    ensures NestedTerms(cfg, env, s, a, amount, who).Success?
    ensures var t := NestedTerms(cfg, env, s, a, amount, who).value;
            t.fee < amount &&
            Balance(DepositAsset(cfg, env, s, a, amount, who).state.ledger, b, x)
            == Balance(s.ledger, b, x) + Gain(b == a && x == cfg.feeAccount, t.fee)
               + Gain(b == a && x == t.reserve && cfg.isReserve(Units(a, amount)), amount - t.fee)
  {
    ForwardingNestsOneDeposit(cfg, env, s, a, amount, who);
    var s1 := DepositLocally(cfg, env, s, a, amount, AccountLocation(cfg.bridgeTransit)).state;
    var t := NestedTerms(cfg, env, s, a, amount, who).value;
    SplitBalance(s1.ledger, a, cfg.bridgeTransit, amount, cfg.feeAccount, t.fee, t.reserve, amount - t.fee, b, x);
  }

  /**
   * When it fails, nothing has changed if the transit account could not be credited, and otherwise exactly that
   * account is left holding the amount.
   */
  lemma FailedForwardingStaysInTransit(cfg: Config, env: Env, s: State, a: AssetId, amount: u128, who: MultiLocation)
    requires RouteOf(who).OtherWorld? && !DepositAsset(cfg, env, s, a, amount, who).ok
    ensures DepositAsset(cfg, env, s, a, amount, who).state ==
            if env.canDeposit(s.ledger, Units(a, amount), AccountLocation(cfg.bridgeTransit))
            then s.(ledger := Credit(s.ledger, a, cfg.bridgeTransit, amount)) else s
  {}

  /**
   * The parachain's transactor forwards four-junction locations to the bridge.  Its own destination parser reads three
   * junctions, the standalone chain's two: neither reads a forwarded location.
   */
  lemma ForwardedLocationsAreUnreadable(who: MultiLocation)
    requires RouteOf(who).OtherWorld?
    ensures StandaloneExtractDest(who).None? && ParachainExtractDest(who).None?
  {}

  /** The bridge reads destinations with one of the shipped parsers. */
  ghost predicate UsesShippedParser(cfg: Config) {
    || (forall loc :: cfg.extractDest(loc) == StandaloneExtractDest(loc))
    || (forall loc :: cfg.extractDest(loc) == ParachainExtractDest(loc))
  }

  lemma ShippedParsersMiss(cfg: Config, who: MultiLocation)
    requires UsesShippedParser(cfg) && RouteOf(who).OtherWorld?
    ensures cfg.extractDest(who).None?
  {
    ForwardedLocationsAreUnreadable(who);
  }

  /** So with either parser no forwarding ever succeeds; for any parser it needs one that reads the location. */
  lemma ForwardingNeedsAParser(cfg: Config, env: Env, s: State, a: AssetId, amount: u128, who: MultiLocation)
    requires RouteOf(who).OtherWorld?
    requires DepositAsset(cfg, env, s, a, amount, who).ok
    ensures cfg.extractDest(who).Some?
    ensures !UsesShippedParser(cfg)
  {
    if UsesShippedParser(cfg) {
      ShippedParsersMiss(cfg, who);
    }
  }

  /**
   * The XCM executor runs the programs of the XCM bridge.  Of such a program the first instruction acts here: a
   * reserve transfer moves the asset to the account of the chain it goes to, a withdrawal burns it.
   */
  ghost predicate RunsPrograms(cfg: Config, env: Env, xcm: XcmBridge.XcmConfig, weight: nat) {
    forall l, from, asset, dest ::
      var sent := env.sendXcm(l, from, asset, dest);
      sent.Sent? ==>
        var program := XcmBridge.BuildTransfer(xcm, asset, dest, weight);
        program.Success? && sent.holder == HolderOf(cfg, program.value)
  }

  function HolderOf(cfg: Config, program: seq<XcmBridge.Instruction>): Option<Account> {
    if program != [] && program[0].TransferReserveAsset? then cfg.sovereign(program[0].dest) else None
  }

  /** Only an asset that is native here is held here for another chain, and then for the chain of the destination. */
  lemma HolderOfTransfer(cfg: Config, xcm: XcmBridge.XcmConfig, asset: MultiAsset, dest: MultiLocation, weight: nat)
    requires XcmBridge.BuildTransfer(xcm, asset, dest, weight).Success?
    ensures HolderOf(cfg, XcmBridge.BuildTransfer(xcm, asset, dest, weight).value) ==
            if xcm.isNative(asset) then cfg.sovereign(XcmBridge.ExtractDest(dest).value.0) else None
  {}

  lemma SendingMoves(cfg: Config, env: Env, s: State, a: AssetId, amount: u128, who: MultiLocation, b: AssetId,
                     x: Account)
    requires RouteOf(who).RemoteChain? && DepositAsset(cfg, env, s, a, amount, who).ok
    ensures var credited := Credit(s.ledger, a, cfg.xcmTransit, amount);
            var sent := env.sendXcm(credited, cfg.xcmTransit, Units(a, amount), who);
            && sent.Sent?
            && Balance(DepositAsset(cfg, env, s, a, amount, who).state.ledger, b, x)
               == Balance(s.ledger, b, x) + Gain(b == a && sent.holder == Some(x), amount)
  {}

  /**
   * Sending by XCM leaves the transit account as it was.  A native asset is then held for the destination's chain, any
   * other is burnt; and the program sent lands at the recipient exactly when the asset is native or its reserve is not
   * on a child chain.
   */
  lemma SendingPassesThrough(cfg: Config, env: Env, xcm: XcmBridge.XcmConfig, weight: nat, self: u32, s: State,
                             a: AssetId, amount: u128, who: MultiLocation, b: AssetId, x: Account)
    requires RunsPrograms(cfg, env, xcm, weight)
    requires RouteOf(who).RemoteChain? && DepositAsset(cfg, env, s, a, amount, who).ok
    ensures XcmBridge.BuildTransfer(xcm, Units(a, amount), who, weight).Success?
    ensures var chain := XcmBridge.ExtractDest(who).value.0;
            Balance(DepositAsset(cfg, env, s, a, amount, who).state.ledger, b, x)
            == Balance(s.ledger, b, x)
               + Gain(b == a && xcm.isNative(Units(a, amount)) && cfg.sovereign(chain) == Some(x), amount)
    ensures var program := XcmBridge.BuildTransfer(xcm, Units(a, amount), who, weight).value;
            var reserve := XcmBridge.ReservedLocation(Units(a, amount)).value;
            XcmBridge.Landing([Parachain(self)], program) == Resolve([Parachain(self)], who) <==>
            xcm.isNative(Units(a, amount)) || !XcmBridge.IsChildChain(reserve)
  {
    SendingMoves(cfg, env, s, a, amount, who, b, x);
    HolderOfTransfer(cfg, xcm, Units(a, amount), who, weight);
    XcmBridge.ExtractDestRecomposes(self, who);
    XcmBridge.TransfersLandAtTheirDestination(xcm, self, Units(a, amount), who, weight);
  }
}
