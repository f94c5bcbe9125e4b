/** Exactly which deposits and which proposals go through. */
module Acceptance {
  import opened Prelude
  import opened Xcm
  import opened Ledgers
  import opened Eip712
  import opened Bridge
  import opened Batches
  import opened Decimals
  import opened Solvency
  import DepositData
  import PercentageFee

  // ---- Deposits

  /** The bridge is set up, not paused and open for the domain. */
  predicate OpenFor(s: State, d: DomainId) {
    !IsClear(s.mpc) && !Flag(s.paused, d) && Flag(s.domains, d)
  }

  /** The balance pallets let `sender` part with the amount, and the treasury and the reserve receive their parts. */
  predicate Permitted(cfg: Config, env: Env, l: Ledger, sender: Account, asset: MultiAsset, amount: u128, fee: u128)
    requires fee < amount <= Balance(l, asset.id, sender) && asset.id in cfg.reserveAccounts
  {
    && env.canWithdraw(l, Units(asset.id, amount), sender)
    && (var burnt := Debit(l, asset.id, sender, amount);
        && env.canDeposit(burnt, Units(asset.id, fee), AccountLocation(cfg.feeAccount))
        && (cfg.isReserve(asset) ==>
              env.canDeposit(Credit(burnt, asset.id, cfg.feeAccount, fee), Units(asset.id, amount - fee),
                             AccountLocation(cfg.reserveAccounts[asset.id]))))
  }

  lemma FundsMoveExactlyWhen(cfg: Config, env: Env, l: Ledger, sender: Account, asset: MultiAsset, amount: u128,
                             fee: u128)
    requires fee < amount
    ensures MoveFunds(cfg, env, l, sender, asset, amount, fee).Success? <==>
            && amount <= Balance(l, asset.id, sender) && asset.id in cfg.reserveAccounts
            && Permitted(cfg, env, l, sender, asset, amount, fee)
  {}

  /** Amounts of an asset with `d` decimals that the converter does not refuse to announce. */
  predicate Announceable(d: u8, amount: nat) {
    (d < 18 ==> amount < TWO_112) && (d > 18 ==> amount % TWO_112 >= Scale(d - 18))
  }

  /** The table of decimals has an entry for the asset, and the first one lets the amount through. */
  ghost predicate Convertible(pairs: seq<(AssetId, u8)>, id: AssetId, amount: nat) {
    exists d: u8 :: FirstEntry<AssetId, u8>(pairs, id, d) && Announceable(d, amount)
  }

  lemma AnnouncedExactlyWhen(pairs: seq<(AssetId, u8)>, id: AssetId, amount: u128)
    ensures ConvertTo(pairs, Units(id, amount)).Some? <==> Convertible(pairs, id, amount)
  {
    FirstMatchFindsTheFirst<AssetId, u8>(pairs, id);
    if FirstMatch<AssetId, u8>(pairs, id).None? {
      UnknownAssetIsRefused(pairs, id, amount);
    } else {
      var d := FirstMatch<AssetId, u8>(pairs, id).value;
      assert FirstEntry<AssetId, u8>(pairs, id, d);
      ConvertToMeaning(pairs, id, d, amount);
      if d > 18 { NothingLeft(amount, Scale(d - 18)); }
    }
  }

  lemma NothingLeft(amount: nat, s: nat)
    requires s > 0
    ensures WrappedQuotient(amount, s) == 0 <==> amount % TWO_112 < s
  {
    NothingFits(amount, amount + 1, s);
  }

  /** The fee handler is the percentage one, in the configuration that `settings` led to. */
  ghost predicate ChargesPercentage(env: Env, settings: seq<PercentageFee.Setting>) {
    forall d, asset :: env.getFee(d, asset) == PercentageFee.GetFee(PercentageFee.Configured(settings), d, asset)
  }

  /** A deposit that got its quote goes through when its funds can move, a nonce is left and the converter agrees. */
  lemma QuotedDeposit(cfg: Config, pairs: seq<(AssetId, u8)>, env: Env, s: State, id: AssetId, q: Quote)
    requires ConvertsWith(cfg, pairs) && q.fee < q.amount
    ensures Complete(cfg, env, s, Units(id, q.amount), q).Success? <==>
            && Count(s.counts, q.domain) + 1 < TWO_64
            && Convertible(pairs, id, q.amount - q.fee)
            && q.amount <= Balance(s.ledger, id, q.sender) && id in cfg.reserveAccounts
            && Permitted(cfg, env, s.ledger, q.sender, Units(id, q.amount), q.amount, q.fee)
  {
    FundsMoveExactlyWhen(cfg, env, s.ledger, q.sender, Units(id, q.amount), q.amount, q.fee);
    AnnouncedExactlyWhen(pairs, id, q.amount - q.fee);
  }

  /**
   * The deposit of `amount` for domain `d` at the given fee may go ahead: the domain is open with a nonce to spare, the
   * asset has a resource and a reserve account, the amount is above the lower fee bound, within the sender's balance
   * and convertible after the fee, and the balance pallets permit it.
   */
  ghost predicate Acceptable(cfg: Config, pairs: seq<(AssetId, u8)>, env: Env, s: State, who: Account, id: AssetId,
                             amount: u128, d: DomainId, lower: u128, fee: u128) {
    && OpenFor(s, d) && Count(s.counts, d) + 1 < TWO_64
    && HasEntry<AssetId, ResourceId>(cfg.resources, id) && id in cfg.reserveAccounts
    && lower < amount <= Balance(s.ledger, id, who) && fee < amount && Convertible(pairs, id, amount - fee)
    && Permitted(cfg, env, s.ledger, who, Units(id, amount), amount, fee)
  }

  lemma AcceptedAtFee(cfg: Config, pairs: seq<(AssetId, u8)>, env: Env, s: State, who: Account, id: AssetId,
                      amount: u128, dest: MultiLocation, lower: u128, fee: u128)
    requires ConvertsWith(cfg, pairs) && cfg.extractDest(dest).Some?
    requires env.getFee(cfg.extractDest(dest).value.1, Units(id, amount)) == Some(fee)
             && (fee < amount <==> lower < amount)
    ensures Deposit(cfg, env, s, Signed(who), Units(id, amount), dest).Success? <==>
            Acceptable(cfg, pairs, env, s, who, id, amount, cfg.extractDest(dest).value.1, lower, fee)
  {
    EntryIsFound<AssetId, ResourceId>(cfg.resources, id);
    var quote := QuoteOf(cfg, env, s, Signed(who), Units(id, amount), dest);
    if quote.Success? {
      QuotedDeposit(cfg, pairs, env, s, id, quote.value);
    }
  }

  /**
   * With the percentage fee handler and the runtime's converter, a signed deposit is accepted exactly when its
   * destination can be read, a rate is set for its domain and asset, and it is acceptable at that rate's fee.
   */
  lemma DepositIsAcceptedExactlyWhen(cfg: Config, pairs: seq<(AssetId, u8)>, settings: seq<PercentageFee.Setting>,
                                     env: Env, s: State, who: Account, id: AssetId, amount: u128, dest: MultiLocation)
    requires ConvertsWith(cfg, pairs) && ChargesPercentage(env, settings)
    ensures var rates, target := PercentageFee.Configured(settings), cfg.extractDest(dest);
            Deposit(cfg, env, s, Signed(who), Units(id, amount), dest).Success? <==>
            && target.Some? && (target.value.1, id) in rates
            && (var rate := rates[(target.value.1, id)];
                Acceptable(cfg, pairs, env, s, who, id, amount, target.value.1, rate.lower,
                           PercentageFee.FeeAt(rate, amount)))
  {
    var rates, target := PercentageFee.Configured(settings), cfg.extractDest(dest);
    if target.Some? {
      var d := target.value.1;
      assert env.getFee(d, Units(id, amount)) == PercentageFee.GetFee(rates, d, Units(id, amount));
      if (d, id) in rates {
        PercentageFee.FeesAreReasonable(settings, d, id, amount, amount);
        AcceptedAtFee(cfg, pairs, env, s, who, id, amount, dest, rates[(d, id)].lower,
                      PercentageFee.FeeAt(rates[(d, id)], amount));
      }
    }
  }

  /** What an accepted deposit announces, told from its inputs. */
  lemma DepositAnnounces(cfg: Config, env: Env, s: State, who: Account, id: AssetId, amount: u128, dest: MultiLocation,
                         resource: ResourceId)
    requires Deposit(cfg, env, s, Signed(who), Units(id, amount), dest).Success?
    requires FirstEntry<AssetId, ResourceId>(cfg.resources, id, resource)
    ensures var s' := Deposit(cfg, env, s, Signed(who), Units(id, amount), dest).value;
            && cfg.extractDest(dest).Some?
            && (var (recipient, d) := cfg.extractDest(dest).value;
                && env.getFee(d, Units(id, amount)).Some?
                && (var fee, nonce := env.getFee(d, Units(id, amount)).value, Count(s.counts, d);
                    && fee < amount && nonce + 1 < TWO_64 && cfg.convertTo(id, amount - fee).Some?
                    && s' == s.(
                         counts := s.counts[d := nonce + 1],
                         ledger := s'.ledger,
                         events := s.events + [
                           DepositMade(d, resource, nonce, who,
                                       DepositData.Create(cfg.convertTo(id, amount - fee).value, recipient)),
                           FeeCollected(who, d, resource, fee, id)],
                         flows := s.flows + [Outbound(d, id, amount - fee, cfg.convertTo(id, amount - fee).value)])))
  {
    FirstEntryIsFound<AssetId, ResourceId>(cfg.resources, id, resource);
    var t := TermsOf(cfg, env, s, Signed(who), Units(id, amount), dest).value;
  }

  // ---- Proposals

  /** The domain of the proposal is open and its nonce fresh. */
  predicate Due(s: State, p: Proposal) {
    !Flag(s.paused, p.origin) && Flag(s.domains, p.origin) && Id(p) !in s.used
  }

  /** What a proposal asks for, if its resource is bound, its data readable and its amount convertible. */
  function Asked(cfg: Config, p: Proposal): Option<Claim> {
    var asset, data := AssetFor(cfg.resources, p.resource), DepositData.Extract(cfg.decodeLocation, p.data);
    if asset.None? || data.None? || asset.value !in cfg.reserveAccounts then None
    else
      match cfg.convertFrom(asset.value, data.value.0)
      case None => None
      case Some(amount) => Some(Claim(asset.value, amount, data.value.1, cfg.reserveAccounts[asset.value]))
  }

  /** A resource stands for the asset of its first entry. */
  lemma {:induction false} AssetForFindsTheFirst(resources: seq<(AssetId, ResourceId)>, r: ResourceId)
    ensures AssetFor(resources, r).None? <==> forall i :: 0 <= i < |resources| ==> resources[i].1 != r
    ensures forall a, i ::
              0 <= i < |resources| && resources[i] == (a, r) && (forall j :: 0 <= j < i ==> resources[j].1 != r) ==>
                AssetFor(resources, r) == Some(a)
  {
    if resources != [] {
      var rest := resources[1..];
      AssetForFindsTheFirst(rest, r);
      assert forall i :: 0 < i < |resources| ==> resources[i] == rest[i - 1];
      if resources[0].1 != r {
        forall a, i | 0 <= i < |resources| && resources[i] == (a, r) && (forall j :: 0 <= j < i ==> resources[j].1 != r)
          ensures AssetFor(resources, r) == Some(a)
        {
          assert rest[i - 1] == (a, r);
          assert forall j :: 0 <= j < i - 1 ==> rest[j] == resources[j + 1];
        }
        assert forall i :: 0 <= i < |rest| ==> rest[i] == resources[i + 1];
      }
    }
  }

  lemma ClaimIsAsked(cfg: Config, s: State, p: Proposal)
    ensures ClaimOf(cfg, s, p).Success? <==> Due(s, p) && Asked(cfg, p).Some?
    ensures ClaimOf(cfg, s, p).Success? ==> ClaimOf(cfg, s, p).value == Asked(cfg, p).value
  {}

  predicate Reserved(cfg: Config, c: Claim) {
    cfg.isReserve(Units(c.asset, c.amount))
  }

  /** The first leg goes through: a reserved asset can be taken from its reserve. */
  predicate Withdrawable(cfg: Config, env: Env, l: Ledger, c: Claim) {
    Reserved(cfg, c) ==>
      env.canWithdraw(l, Units(c.asset, c.amount), c.reserve) && c.amount <= Balance(l, c.asset, c.reserve)
  }

  /** The balances after the reserve has parted with its share. */
  function AfterReserve(cfg: Config, l: Ledger, c: Claim): Ledger
    requires Reserved(cfg, c) ==> c.amount <= Balance(l, c.asset, c.reserve)
  {
    if Reserved(cfg, c) then Debit(l, c.asset, c.reserve, c.amount) else l
  }

  predicate Receivable(cfg: Config, env: Env, l: Ledger, c: Claim) {
    AccountOf(cfg, c.to).Some? && env.canDeposit(l, Units(c.asset, c.amount), c.to)
  }

  predicate Payable(cfg: Config, env: Env, l: Ledger, c: Claim) {
    Withdrawable(cfg, env, l, c) && Receivable(cfg, env, AfterReserve(cfg, l, c), c)
  }

  /** The balances a claim with a local recipient leaves behind. */
  function BalancesAfter(cfg: Config, env: Env, l: Ledger, c: Claim): Ledger {
    if !Withdrawable(cfg, env, l, c) then l
    else
      var l1 := AfterReserve(cfg, l, c);
      if Receivable(cfg, env, l1, c) then Credit(l1, c.asset, AccountOf(cfg, c.to).value, c.amount) else l1
  }

  lemma PaidExactlyWhen(cfg: Config, env: Env, s: State, c: Claim)
    requires RouteOf(c.to).Local?
    ensures var paid := Pay(cfg, env, s, c);
            && (paid.error.None? <==> Payable(cfg, env, s.ledger, c))
            && paid.state.ledger == BalancesAfter(cfg, env, s.ledger, c)
  {
    var s1 := Withdraw(cfg, env, s, c);
    assert s1.Some? <==> Withdrawable(cfg, env, s.ledger, c);
    if s1.Some? {
      assert s1.value.ledger == AfterReserve(cfg, s.ledger, c);
    }
  }

  /**
   * A proposal for a recipient on this chain is reported as executed exactly when it is due and what it asks for can
   * be paid.  Its balances are then the paid ones; if it fails, they are untouched but for a reserve that had already
   * parted with its share.
   */
  lemma LocalProposalIsPaidExactlyWhen(cfg: Config, env: Env, s: State, p: Proposal)
    requires LocalRecipient(cfg, p)
    ensures var s' := ExecuteOne(cfg, env, s, p);
            var asked := Asked(cfg, p);
            var claims := Due(s, p) && asked.Some?;
            var ok := claims && Payable(cfg, env, s.ledger, asked.value);
            && Outcomes(s'.events) == Outcomes(s.events) + [Outcome(p.origin, p.nonce, ok)]
            && s'.used == s.used + (if ok then {Id(p)} else {})
            && s'.ledger == if claims then BalancesAfter(cfg, env, s.ledger, asked.value) else s.ledger
  {
    var claim := ClaimOf(cfg, s, p);
    ClaimIsAsked(cfg, s, p);
    if claim.Failure? {
      OutcomesOne(s.events, FailedHandlerExecution(claim.error, p.origin, p.nonce));
    } else {
      PaymentOutcome(cfg, env, s, p, claim.value);
      PaidExactlyWhen(cfg, env, s, claim.value);
    }
  }
}
