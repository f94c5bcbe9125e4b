/** Which recipients are served here, which through the bridge and which by XCM, told from their locations alone. */
module Routing {
  import opened Prelude
  import opened Xcm
  import opened Ledgers
  import opened Bridge
  import opened SygmaRuntime
  import Eip712

  /** An account or a 20-byte key on this chain, or a sibling chain. */
  ghost predicate IsHere(who: MultiLocation) {
    || (exists network, id :: who == MultiLocation(0, [AccountId32(network, id)]))
    || (exists network, key :: who == MultiLocation(0, [AccountKey20(network, key)]))
    || (exists para :: who == MultiLocation(1, [Parachain(para)]))
  }

  /** `sygma`, `sygma-bridge`, the domain and the recipient's key, at any height. */
  ghost predicate IsOtherWorld(who: MultiLocation) {
    exists parents: u8, index: u128, length: u8, data: Bytes32 ::
      who == MultiLocation(parents, [Key(SYGMA), Key(SYGMA_BRIDGE), GeneralIndex(index), GeneralKey(length, data)])
  }

  lemma KeysSpellSygma()
    ensures SYGMA == Eip712.Ascii("sygma") && SYGMA_BRIDGE == Eip712.Ascii("sygma-bridge")
  {}

  lemma HereIsLocal(who: MultiLocation)
    ensures RouteOf(who).Local? <==> IsHere(who)
  {
    if RouteOf(who).Local? {
      var j := who.interior[0];
      assert who.interior == [j];
      match j
      case AccountId32(network, id) => assert who == MultiLocation(0, [AccountId32(network, id)]);
      case AccountKey20(network, key) => assert who == MultiLocation(0, [AccountKey20(network, key)]);
      case Parachain(para) => assert who == MultiLocation(1, [Parachain(para)]);
      case _ =>
    }
  }

  lemma OtherWorldIsForwarded(who: MultiLocation)
    ensures RouteOf(who).OtherWorld? <==> IsOtherWorld(who)
  {
    if RouteOf(who).OtherWorld? {
      var i, k := who.interior[2], who.interior[3];
      assert who.interior == [who.interior[0], who.interior[1], i, k];
      assert who == MultiLocation(who.parents, [Key(SYGMA), Key(SYGMA_BRIDGE), GeneralIndex(i.index),
                                                GeneralKey(k.length, k.data)]);
    }
  }

  /** No location is both. */
  lemma RoutesAreDisjoint(who: MultiLocation)
    ensures !(IsHere(who) && IsOtherWorld(who))
  {
    HereIsLocal(who);
    OtherWorldIsForwarded(who);
  }

  /** A recipient here: their account is credited, exactly when the location has one and the balance rules permit it. */
  lemma RecipientsHereAreCredited(cfg: Config, env: Env, s: State, a: AssetId, amount: u128, who: MultiLocation)
    requires IsHere(who)
    ensures var r := DepositAsset(cfg, env, s, a, amount, who);
            && (r.ok <==> AccountOf(cfg, who).Some? && env.canDeposit(s.ledger, Units(a, amount), who))
            && r.state == if r.ok then s.(ledger := Credit(s.ledger, a, AccountOf(cfg, who).value, amount)) else s
  {
    HereIsLocal(who);
  }

  /** The account of an account location is the account itself, of any other what the runtime derives from it. */
  lemma AccountsOfRecipients(cfg: Config, network: Option<NetworkId>, id: Account, who: MultiLocation)
    ensures AccountOf(cfg, MultiLocation(0, [AccountId32(network, id)])) == Some(id)
    ensures (forall n, i :: who != MultiLocation(0, [AccountId32(n, i)])) ==> AccountOf(cfg, who) == cfg.sovereign(who)
  {
    if |who.interior| == 1 {
      assert who.interior == [who.interior[0]];
      if who.parents == 0 && who.interior[0].AccountId32? {
        assert who == MultiLocation(0, [AccountId32(who.interior[0].network, who.interior[0].id)]);
      }
    }
  }

  /**
   * A recipient in another domain: the transit account is credited and makes a deposit for the whole amount to that
   * very location; if it cannot, what it was credited stays.
   */
  lemma OtherWorldRecipientsAreForwarded(cfg: Config, env: Env, s: State, a: AssetId, amount: u128, who: MultiLocation)
    requires IsOtherWorld(who)
    ensures var r := DepositAsset(cfg, env, s, a, amount, who);
            var via := AccountLocation(cfg.bridgeTransit);
            var credited := s.(ledger := Credit(s.ledger, a, cfg.bridgeTransit, amount));
            if !env.canDeposit(s.ledger, Units(a, amount), via) then r == Attempt(s, false)
            else
              match Deposit(cfg, env, credited, Signed(cfg.bridgeTransit), Units(a, amount), who)
              case Failure(_) => r == Attempt(credited, false)
              case Success(after) =>
                r == Attempt(after.(events := after.events + [OtherWorldForwarded(Units(a, amount), via, who)]), true)
  {
    OtherWorldIsForwarded(who);
  }

  /** Nothing but the balances and the log can have changed, and the log exactly by the two events of a success. */
  ghost predicate OnlySends(s: State, s': State, sent: bool, asset: MultiAsset, via: MultiLocation,
                            who: MultiLocation) {
    s' == s.(ledger := s'.ledger,
             events := if sent then s.events + [XcmTransferSend(asset, via, who), XcmForwarded(asset, via, who)]
                       else s.events)
  }

  /** The balances after the transit account was credited an amount and gave it up again, to its holder if any. */
  function Handed(l: Ledger, a: AssetId, amount: u128, transit: Account, holder: Option<Account>): Ledger {
    var l1 := Credit(l, a, transit, amount);
    var l2 := Debit(l1, a, transit, amount);
    if holder.Some? then Credit(l2, a, holder.value, amount) else l2
  }

  lemma ThroughTransit(l: Ledger, a: AssetId, amount: u128, transit: Account, holder: Option<Account>,
                       b: AssetId, x: Account)
    ensures Balance(Handed(l, a, amount, transit, holder), b, x)
            == Balance(l, b, x) + Gain(b == a && holder == Some(x), amount)
  {}

  lemma SendingMeans(cfg: Config, env: Env, s: State, a: AssetId, amount: u128, who: MultiLocation)
    ensures var r := ForwardToXcm(cfg, env, s, a, amount, who);
            var via := AccountLocation(cfg.xcmTransit);
            var credited := Credit(s.ledger, a, cfg.xcmTransit, amount);
            if !env.canDeposit(s.ledger, Units(a, amount), via) then r == Attempt(s, false)
            else
              match env.sendXcm(credited, cfg.xcmTransit, Units(a, amount), who)
              case Refused => r == Attempt(s.(ledger := credited), false)
              case Sent(holder, complete) =>
                && r.ok == complete && OnlySends(s, r.state, complete, Units(a, amount), via, who)
                && r.state.ledger == Handed(s.ledger, a, amount, cfg.xcmTransit, holder)
  {}

  /**
   * Any other recipient: the transit account is credited and sends the asset by XCM.  If that is refused it keeps what
   * it was credited; if it is sent, completely or not, the transit account is as it was and the asset with its holder.
   */
  lemma OtherRecipientsAreSent(cfg: Config, env: Env, s: State, a: AssetId, amount: u128, who: MultiLocation,
                               b: AssetId, x: Account)
    requires !IsHere(who) && !IsOtherWorld(who)
    ensures var r := DepositAsset(cfg, env, s, a, amount, who);
            var via := AccountLocation(cfg.xcmTransit);
            var credited := Credit(s.ledger, a, cfg.xcmTransit, amount);
            if !env.canDeposit(s.ledger, Units(a, amount), via) then r == Attempt(s, false)
            else
              match env.sendXcm(credited, cfg.xcmTransit, Units(a, amount), who)
              case Refused => r == Attempt(s.(ledger := credited), false)
              case Sent(holder, complete) =>
                && r.ok == complete && OnlySends(s, r.state, complete, Units(a, amount), via, who)
                && Balance(r.state.ledger, b, x) == Balance(s.ledger, b, x) + Gain(b == a && holder == Some(x), amount)
  {
    HereIsLocal(who);
    OtherWorldIsForwarded(who);
    SendingMeans(cfg, env, s, a, amount, who);
    match env.sendXcm(Credit(s.ledger, a, cfg.xcmTransit, amount), cfg.xcmTransit, Units(a, amount), who)
    case Refused =>
    case Sent(holder, _) => ThroughTransit(s.ledger, a, amount, cfg.xcmTransit, holder, b, x);
  }
}
