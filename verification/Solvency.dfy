/** Value across the bridge: what is released never exceeds what was locked, whatever the decimals. */
module Solvency {
  import opened Prelude
  import opened Xcm
  import opened Ledgers
  import opened Eip712
  import opened Bridge
  import opened Atoms
  import opened Decimals
  import opened FixedPoint
  import DepositData
  import SygmaRuntime

  /** The bridge converts decimals with the runtime's converter over `pairs`. */
  ghost predicate ConvertsWith(cfg: Config, pairs: seq<(AssetId, u8)>) {
    && (forall a, n :: cfg.convertTo(a, n) == ConvertTo(pairs, Units(a, n)))
    && (forall a, n :: cfg.convertFrom(a, n) == ConvertedAmount(pairs, a, n))
  }

  function ConvertedAmount(pairs: seq<(AssetId, u8)>, a: AssetId, n: u128): Option<u128> {
    var r := ConvertFrom(pairs, Units(a, n));
    if r.Some? && r.value.fun.Fungible? then Some(r.value.fun.amount) else None
  }

  // ---- Totals over the history of flows

  datatype Tally = Locked | Announced | Presented | Released | Missing

  /** What one flow adds to a tally of asset `a`; `Presented` counts the 18-decimal amounts of executed proposals. */
  function Amount(f: Flow, a: AssetId, tally: Tally): nat {
    match f
    case Outbound(_, b, locked, announced) =>
      if a != b then 0 else if tally.Locked? then locked else if tally.Announced? then announced else 0
    case Inbound(p, b, released, _) =>
      if a != b then 0
      else if tally.Presented? then DepositData.AmountWord(p.data) else if tally.Released? then released else 0
    case Stranded(b, lost) => if a == b && tally.Missing? then lost else 0
  }

  function Total(flows: seq<Flow>, a: AssetId, tally: Tally): nat {
    if flows == [] then 0 else Total(flows[..|flows| - 1], a, tally) + Amount(flows[|flows| - 1], a, tally)
  }

  lemma TotalOne(flows: seq<Flow>, f: Flow, a: AssetId, tally: Tally)
    ensures Total(flows + [f], a, tally) == Total(flows, a, tally) + Amount(f, a, tally)
  {
    assert (flows + [f])[..|flows|] == flows;
  }

  // ---- Rounding

  predicate FlowConverts(cfg: Config, f: Flow) {
    match f
    case Outbound(_, a, locked, announced) => cfg.convertTo(a, locked) == Some(announced)
    case Inbound(p, a, released, _) =>
      var amount := DepositData.AmountWord(p.data);
      amount < TWO_128 && cfg.convertFrom(a, amount) == Some(released)
    case Stranded(_, _) => true
  }

  predicate AllConvert(cfg: Config, flows: seq<Flow>) {
    forall i :: 0 <= i < |flows| ==> FlowConverts(cfg, flows[i])
  }

  lemma AtomConverts(cfg: Config, s: State, x: Atom)
    requires Legal1(cfg, s, x) && AllConvert(cfg, s.flows)
    ensures AllConvert(cfg, Apply(cfg, s, x).flows)
  {
    var s' := Apply(cfg, s, x);
    if |s'.flows| > |s.flows| {
      assert FlowConverts(cfg, s'.flows[|s.flows|]);
    }
  }

  lemma {:induction false} PlayConverts(cfg: Config, s: State, xs: seq<Atom>)
    requires Legal(cfg, s, xs) && AllConvert(cfg, s.flows)
    ensures AllConvert(cfg, Play(cfg, s, xs).flows)
  {
    if xs != [] {
      PlayConverts(cfg, s, xs[..|xs| - 1]);
      AtomConverts(cfg, Play(cfg, s, xs[..|xs| - 1]), xs[|xs| - 1]);
    }
  }

  /**
   * No conversion creates value.  A fine asset has `scale` of its units to an 18-decimal unit, a coarse one has
   * `scale` 18-decimal units to one of its own.
   */
  predicate Prudent(fine: bool, scale: nat, locked: nat, announced: nat, presented: nat, released: nat) {
    if fine then announced * scale <= locked && released <= presented * scale
    else announced <= locked * scale && released * scale <= presented
  }

  function ScaleOf(d: u8): (s: nat)
    ensures s > 0
  {
    if d == 18 then 1 else if d > 18 then Scale(d - 18) else Scale(18 - d)
  }

  /** Either direction of a conversion of `a`, wrapped and saturated amounts included. */
  ghost predicate PrudentConverter(cfg: Config, a: AssetId, fine: bool, scale: nat) {
    && (forall locked: u128 :: cfg.convertTo(a, locked).Some? ==>
          Prudent(fine, scale, locked, cfg.convertTo(a, locked).value, 0, 0))
    && (forall presented: u128 :: cfg.convertFrom(a, presented).Some? ==>
          Prudent(fine, scale, 0, 0, presented, cfg.convertFrom(a, presented).value))
  }

  lemma DepositIsPrudent(pairs: seq<(AssetId, u8)>, a: AssetId, d: u8, locked: u128)
    requires FirstEntry<AssetId, u8>(pairs, a, d) && ConvertTo(pairs, Units(a, locked)).Some?
    ensures Prudent(d >= 18, ScaleOf(d), locked, ConvertTo(pairs, Units(a, locked)).value, 0, 0)
  {
    ConvertToMeaning(pairs, a, d, locked);
  }

  lemma PaymentIsPrudent(pairs: seq<(AssetId, u8)>, a: AssetId, d: u8, presented: u128)
    requires FirstEntry<AssetId, u8>(pairs, a, d) && ConvertedAmount(pairs, a, presented).Some?
    ensures Prudent(d >= 18, ScaleOf(d), 0, 0, presented, ConvertedAmount(pairs, a, presented).value)
  {
    ConvertFromMeaning(pairs, a, d, presented);
  }

  lemma KnownAssetIsPrudent(cfg: Config, pairs: seq<(AssetId, u8)>, a: AssetId, d: u8)
    requires ConvertsWith(cfg, pairs) && FirstEntry<AssetId, u8>(pairs, a, d)
    ensures PrudentConverter(cfg, a, d >= 18, ScaleOf(d))
  {
    forall n: u128 | cfg.convertTo(a, n).Some?
      ensures Prudent(d >= 18, ScaleOf(d), n, cfg.convertTo(a, n).value, 0, 0)
    {
      DepositIsPrudent(pairs, a, d, n);
    }
    forall n: u128 | cfg.convertFrom(a, n).Some?
      ensures Prudent(d >= 18, ScaleOf(d), 0, 0, n, cfg.convertFrom(a, n).value)
    {
      PaymentIsPrudent(pairs, a, d, n);
    }
  }

  /** The runtime's converter never creates value; an asset it does not know it does not convert at all. */
  lemma RuntimeConverterIsPrudent(cfg: Config, pairs: seq<(AssetId, u8)>, a: AssetId) returns (fine: bool, scale: nat)
    requires ConvertsWith(cfg, pairs)
    ensures scale > 0 && PrudentConverter(cfg, a, fine, scale)
  {
    FirstMatchFindsTheFirst<AssetId, u8>(pairs, a);
    if FirstMatch<AssetId, u8>(pairs, a).Some? {
      var d := FirstMatch<AssetId, u8>(pairs, a).value;
      fine, scale := d >= 18, ScaleOf(d);
      KnownAssetIsPrudent(cfg, pairs, a, d);
    } else {
      fine, scale := true, 1;
      forall n: u128
        ensures cfg.convertTo(a, n).None? && cfg.convertFrom(a, n).None?
      {
        UnknownAssetIsRefused(pairs, a, n);
      }
    }
  }

  ghost predicate FlowIsPrudent(f: Flow, a: AssetId, fine: bool, scale: nat) {
    Prudent(fine, scale, Amount(f, a, Locked), Amount(f, a, Announced), Amount(f, a, Presented), Amount(f, a, Released))
  }

  lemma PrudentAdds(fine: bool, s: nat, l1: nat, a1: nat, p1: nat, r1: nat, l2: nat, a2: nat, p2: nat, r2: nat)
    requires Prudent(fine, s, l1, a1, p1, r1) && Prudent(fine, s, l2, a2, p2, r2)
    ensures Prudent(fine, s, l1 + l2, a1 + a2, p1 + p2, r1 + r2)
  {
    Distribute(s, a1, a2);
    Distribute(s, p1, p2);
    Distribute(s, l1, l2);
    Distribute(s, r1, r2);
  }

  lemma {:induction false} TotalsArePrudent(flows: seq<Flow>, a: AssetId, fine: bool, scale: nat)
    requires forall i :: 0 <= i < |flows| ==> FlowIsPrudent(flows[i], a, fine, scale)
    ensures Prudent(fine, scale, Total(flows, a, Locked), Total(flows, a, Announced),
                    Total(flows, a, Presented), Total(flows, a, Released))
  {
    if flows != [] {
      var init, f := flows[..|flows| - 1], flows[|flows| - 1];
      TotalsArePrudent(init, a, fine, scale);
      PrudentAdds(fine, scale,
                  Total(init, a, Locked), Total(init, a, Announced), Total(init, a, Presented),
                  Total(init, a, Released),
                  Amount(f, a, Locked), Amount(f, a, Announced), Amount(f, a, Presented), Amount(f, a, Released));
    }
  }

  lemma PrudentTotalsAreSolvent(fine: bool, s: nat, locked: nat, announced: nat, presented: nat, released: nat)
    requires Prudent(fine, s, locked, announced, presented, released) && presented <= announced && s > 0
    ensures released <= locked
  {
    if fine {
      MulMonotone(s, presented, announced);
    } else if released > locked {
      MulMonotone(s, locked + 1, released);
      Distribute(s, locked, 1);
    }
  }

  lemma RunConverts(cfg: Config, balances: Ledger, steps: seq<Step>)
    ensures AllConvert(cfg, Run(cfg, Genesis(balances), steps).flows)
  {
    var xs := RunPlays(cfg, Genesis(balances), steps);
    PlayConverts(cfg, Genesis(balances), xs);
  }

  /**
   * Solvency under rounding: in every run, for every asset and any decimals, if the relayers never execute more
   * 18-decimal value than deposits announced, the bridge never releases more than it locked.
   */
  lemma ReleasedNeverExceedsLocked(cfg: Config, pairs: seq<(AssetId, u8)>, balances: Ledger, steps: seq<Step>,
                                   a: AssetId)
    requires ConvertsWith(cfg, pairs)
    requires var flows := Run(cfg, Genesis(balances), steps).flows;
             Total(flows, a, Presented) <= Total(flows, a, Announced)
    ensures var flows := Run(cfg, Genesis(balances), steps).flows; Total(flows, a, Released) <= Total(flows, a, Locked)
  {
    var flows := Run(cfg, Genesis(balances), steps).flows;
    RunConverts(cfg, balances, steps);
    var fine, scale := RuntimeConverterIsPrudent(cfg, pairs, a);
    ConvertedFlowsArePrudent(cfg, flows, a, fine, scale);
    PrudentFlowsAreSolvent(flows, a, fine, scale);
  }

  lemma ConvertedFlowsArePrudent(cfg: Config, flows: seq<Flow>, a: AssetId, fine: bool, scale: nat)
    requires PrudentConverter(cfg, a, fine, scale) && AllConvert(cfg, flows)
    ensures forall i :: 0 <= i < |flows| ==> FlowIsPrudent(flows[i], a, fine, scale)
  {
    forall i | 0 <= i < |flows|
      ensures FlowIsPrudent(flows[i], a, fine, scale)
    {
      assert FlowConverts(cfg, flows[i]);
    }
  }

  lemma PrudentFlowsAreSolvent(flows: seq<Flow>, a: AssetId, fine: bool, scale: nat)
    requires scale > 0 && forall i :: 0 <= i < |flows| ==> FlowIsPrudent(flows[i], a, fine, scale)
    requires Total(flows, a, Presented) <= Total(flows, a, Announced)
    ensures Total(flows, a, Released) <= Total(flows, a, Locked)
  {
    TotalsArePrudent(flows, a, fine, scale);
    PrudentTotalsAreSolvent(fine, scale, Total(flows, a, Locked), Total(flows, a, Announced),
                            Total(flows, a, Presented), Total(flows, a, Released));
  }

  // ---- The reserve account

  /** `holder` is the reserve of the locally reserved asset `a`, and not one of the bridge's transit accounts. */
  ghost predicate Reserves(cfg: Config, a: AssetId, holder: Account) {
    && Lookup(cfg.reserveAccounts, a) == Some(holder)
    && (forall n :: cfg.isReserve(Units(a, n)))
    && holder != cfg.bridgeTransit && holder != cfg.xcmTransit
  }

  /** With the runtime's reserve check one amount decides for all. */
  lemma RuntimeReserves(cfg: Config, a: AssetId, holder: Account, n: u128)
    requires forall asset :: cfg.isReserve(asset) == SygmaRuntime.IsReserve(asset)
    requires cfg.isReserve(Units(a, n)) && Lookup(cfg.reserveAccounts, a) == Some(holder)
    requires holder != cfg.bridgeTransit && holder != cfg.xcmTransit
    ensures Reserves(cfg, a, holder)
  {
    forall m: u128 { SygmaRuntime.ReserveIgnoresAmount(a, n, m); }
  }

  /** Reserve balance beyond what the bridge still owes. */
  function Slack(s: State, a: AssetId, holder: Account): int {
    Balance(s.ledger, a, holder) - Owed(s.flows, a)
  }

  /** What was locked and neither released nor stranded. */
  function Owed(flows: seq<Flow>, a: AssetId): int {
    Total(flows, a, Locked) - Total(flows, a, Released) - Total(flows, a, Missing)
  }

  lemma OwedOne(flows: seq<Flow>, f: Flow, a: AssetId)
    ensures Owed(flows + [f], a)
            == Owed(flows, a) + Amount(f, a, Locked) - Amount(f, a, Released) - Amount(f, a, Missing)
  {
    TotalOne(flows, f, a, Locked);
    TotalOne(flows, f, a, Released);
    TotalOne(flows, f, a, Missing);
  }

  /** The reserve is neither the treasury nor an account that XCM transfers are held in. */
  ghost predicate Apart(cfg: Config, env: Env, holder: Account) {
    && holder != cfg.feeAccount
    && forall l, from, asset, dest ::
         var sent := env.sendXcm(l, from, asset, dest); sent.Sent? ==> sent.holder != Some(holder)
  }

  predicate PaysElsewhere(cfg: Config, to: MultiLocation, holder: Account) {
    RouteOf(to).Local? ==> AccountOf(cfg, to) != Some(holder)
  }

  /** A deposit adds to the reserve exactly what it locks, and its fee if the reserve is the treasury too. */
  lemma SettlingKeepsSlack(cfg: Config, s: State, t: Terms, reserved: bool, a: AssetId, holder: Account)
    returns (extra: nat)
    requires Count(s.counts, t.domain) + 1 < TWO_64 && t.fee < t.amount <= Balance(s.ledger, t.asset, t.sender)
    requires t.asset == a ==> t.reserve == holder && reserved
    requires t.sender != holder
    requires var taxed := Credit(Debit(s.ledger, t.asset, t.sender, t.amount), t.asset, cfg.feeAccount, t.fee);
             t.ledger == if reserved then Credit(taxed, t.asset, t.reserve, t.amount - t.fee) else taxed
    ensures Slack(Settle(s, t), a, holder) == Slack(s, a, holder) + extra
    ensures holder != cfg.feeAccount ==> extra == 0
  {
    extra := Gain(t.asset == a && holder == cfg.feeAccount, t.fee);
    SplitBalance(s.ledger, t.asset, t.sender, t.amount, cfg.feeAccount, t.fee, t.reserve, t.amount - t.fee, a, holder);
    OwedOne(s.flows, Outbound(t.domain, t.asset, t.amount - t.fee, t.announced), a);
  }

  lemma DepositKeepsSlack(cfg: Config, env: Env, s: State, origin: Origin, asset: MultiAsset, dest: MultiLocation,
                          a: AssetId, holder: Account) returns (extra: nat)
    requires Reserves(cfg, a, holder) && origin != Signed(holder)
    requires Deposit(cfg, env, s, origin, asset, dest).Success?
    ensures Slack(Deposit(cfg, env, s, origin, asset, dest).value, a, holder) == Slack(s, a, holder) + extra
    ensures holder != cfg.feeAccount ==> extra == 0
  {
    var t := TermsOf(cfg, env, s, origin, asset, dest).value;
    extra := SettlingKeepsSlack(cfg, s, t, cfg.isReserve(asset), a, holder);
  }

  lemma ForwardingKeepsSlack(cfg: Config, env: Env, s: State, b: AssetId, amount: u128, who: MultiLocation,
                             a: AssetId, holder: Account) returns (extra: nat)
    requires Reserves(cfg, a, holder)
    ensures Slack(ForwardToBridge(cfg, env, s, b, amount, who).state, a, holder) == Slack(s, a, holder) + extra
    ensures holder != cfg.feeAccount ==> extra == 0
  {
    extra := 0;
    var s1 := DepositLocally(cfg, env, s, b, amount, AccountLocation(cfg.bridgeTransit)).state;
    assert Slack(s1, a, holder) == Slack(s, a, holder);
    if ForwardToBridge(cfg, env, s, b, amount, who).ok {
      extra := DepositKeepsSlack(cfg, env, s1, Signed(cfg.bridgeTransit), Units(b, amount), who, a, holder);
    }
  }

  /** What an XCM transfer does to the balance of an account that is not the sender. */
  lemma XcmTransferPays(env: Env, l: Ledger, from: Account, b: AssetId, amount: u128, dest: MultiLocation,
                        a: AssetId, holder: Account)
    requires holder != from
    ensures var sent := env.sendXcm(l, from, Units(b, amount), dest);
            Balance(XcmTransfer(env, l, from, b, amount, dest).ledger, a, holder)
            == Balance(l, a, holder)
               + Gain(a == b && sent.Sent? && amount <= Balance(l, b, from) && sent.holder == Some(holder), amount)
  {}

  lemma SendingKeepsSlack(cfg: Config, env: Env, s: State, b: AssetId, amount: u128, who: MultiLocation,
                          a: AssetId, holder: Account) returns (extra: nat)
    requires Reserves(cfg, a, holder)
    ensures Slack(ForwardToXcm(cfg, env, s, b, amount, who).state, a, holder) == Slack(s, a, holder) + extra
    ensures Apart(cfg, env, holder) ==> extra == 0
  {
    extra := 0;
    var s' := ForwardToXcm(cfg, env, s, b, amount, who).state;
    assert s'.flows == s.flows;
    var l := Credit(s.ledger, b, cfg.xcmTransit, amount);
    if DepositLocally(cfg, env, s, b, amount, AccountLocation(cfg.xcmTransit)).ok {
      assert s'.ledger == XcmTransfer(env, l, cfg.xcmTransit, b, amount, who).ledger;
      XcmTransferPays(env, l, cfg.xcmTransit, b, amount, who, a, holder);
      var sent := env.sendXcm(l, cfg.xcmTransit, Units(b, amount), who);
      extra := Gain(a == b && sent.Sent? && amount <= Balance(l, b, cfg.xcmTransit) && sent.holder == Some(holder),
                    amount);
    }
  }

  lemma MintingKeepsSlack(cfg: Config, env: Env, s: State, b: AssetId, amount: u128, who: MultiLocation,
                          a: AssetId, holder: Account) returns (extra: nat)
    ensures Slack(DepositLocally(cfg, env, s, b, amount, who).state, a, holder) == Slack(s, a, holder) + extra
    ensures AccountOf(cfg, who) != Some(holder) ==> extra == 0
  {
    var ok := DepositLocally(cfg, env, s, b, amount, who).ok;
    extra := Gain(a == b && ok && AccountOf(cfg, who) == Some(holder), amount);
  }

  lemma RoutingKeepsSlack(cfg: Config, env: Env, s: State, b: AssetId, amount: u128, who: MultiLocation,
                          a: AssetId, holder: Account) returns (extra: nat)
    requires Reserves(cfg, a, holder)
    ensures Slack(DepositAsset(cfg, env, s, b, amount, who).state, a, holder) == Slack(s, a, holder) + extra
    ensures Apart(cfg, env, holder) && PaysElsewhere(cfg, who, holder) ==> extra == 0
  {
    match RouteOf(who)
    case Local => extra := MintingKeepsSlack(cfg, env, s, b, amount, who, a, holder);
    case OtherWorld => extra := ForwardingKeepsSlack(cfg, env, s, b, amount, who, a, holder);
    case RemoteChain => extra := SendingKeepsSlack(cfg, env, s, b, amount, who, a, holder);
  }

  lemma WithdrawCosts(cfg: Config, env: Env, s: State, c: Claim, a: AssetId, holder: Account)
    requires Reserves(cfg, a, holder) && Lookup(cfg.reserveAccounts, c.asset) == Some(c.reserve)
    requires Withdraw(cfg, env, s, c).Some?
    ensures Slack(Withdraw(cfg, env, s, c).value, a, holder) + Gain(c.asset == a, c.amount) == Slack(s, a, holder)
  {}

  lemma StrandingCosts(s: State, b: AssetId, amount: u128, a: AssetId, holder: Account)
    ensures Slack(s.(flows := s.flows + [Stranded(b, amount)]), a, holder) == Slack(s, a, holder) + Gain(a == b, amount)
  {
    OwedOne(s.flows, Stranded(b, amount), a);
  }

  /** A failed delivery is booked as stranded at once. */
  lemma DeliverCosts(cfg: Config, env: Env, s: State, c: Claim, a: AssetId, holder: Account) returns (extra: nat)
    requires Reserves(cfg, a, holder)
    ensures var r := Deliver(cfg, env, s, c);
            Slack(r.state, a, holder) == Slack(s, a, holder) + Gain(r.error.Some? && c.asset == a, c.amount) + extra
    ensures Apart(cfg, env, holder) && PaysElsewhere(cfg, c.to, holder) ==> extra == 0
  {
    extra := RoutingKeepsSlack(cfg, env, s, c.asset, c.amount, c.to, a, holder);
    var routed := DepositAsset(cfg, env, s, c.asset, c.amount, c.to);
    StrandingCosts(routed.state, c.asset, c.amount, a, holder);
    DeliveredState(cfg, env, s, c);
  }

  lemma DeliveredState(cfg: Config, env: Env, s: State, c: Claim)
    ensures var routed, r := DepositAsset(cfg, env, s, c.asset, c.amount, c.to), Deliver(cfg, env, s, c);
            && (r.error.None? <==> routed.ok)
            && r.state == if !routed.ok && cfg.isReserve(Units(c.asset, c.amount))
                          then routed.state.(flows := routed.state.flows + [Stranded(c.asset, c.amount)])
                          else routed.state
  {}

  lemma PayCosts(cfg: Config, env: Env, s: State, c: Claim, a: AssetId, holder: Account) returns (extra: nat)
    requires Reserves(cfg, a, holder) && Lookup(cfg.reserveAccounts, c.asset) == Some(c.reserve)
    ensures var paid := Pay(cfg, env, s, c);
            Slack(paid.state, a, holder) + Gain(paid.error.None? && c.asset == a, c.amount)
            == Slack(s, a, holder) + extra
    ensures Apart(cfg, env, holder) && PaysElsewhere(cfg, c.to, holder) ==> extra == 0
  {
    extra := 0;
    var s1 := Withdraw(cfg, env, s, c);
    if s1.Some? {
      WithdrawCosts(cfg, env, s, c, a, holder);
      extra := DeliverCosts(cfg, env, s1.value, c, a, holder);
    }
  }

  lemma FailureCosts(s: State, p: Proposal, e: Error, a: AssetId, holder: Account)
    ensures Slack(Failed(s, p, e), a, holder) == Slack(s, a, holder)
  {}

  lemma ExecutionCosts(cfg: Config, s: State, p: Proposal, c: Claim, a: AssetId, holder: Account)
    ensures Slack(Executed(cfg, s, p, c), a, holder) == Slack(s, a, holder) + Gain(c.asset == a, c.amount)
  {
    ReleasingCosts(s, Executed(cfg, s, p, c), p, c, a, holder);
  }

  lemma ReleasingCosts(s: State, s': State, p: Proposal, c: Claim, a: AssetId, holder: Account)
    requires s'.flows == s.flows + [Inbound(p, c.asset, c.amount, c.to)] && s'.ledger == s.ledger
    ensures Slack(s', a, holder) == Slack(s, a, holder) + Gain(c.asset == a, c.amount)
  {
    OwedOne(s.flows, Inbound(p, c.asset, c.amount, c.to), a);
  }

  predicate ProposalPaysElsewhere(cfg: Config, p: Proposal, holder: Account) {
    var data := DepositData.Extract(cfg.decodeLocation, p.data);
    data.Some? ==> PaysElsewhere(cfg, data.value.1, holder)
  }

  lemma ProposalKeepsSlack(cfg: Config, env: Env, s: State, p: Proposal, a: AssetId, holder: Account)
    returns (extra: nat)
    requires Reserves(cfg, a, holder)
    ensures Slack(ExecuteOne(cfg, env, s, p), a, holder) == Slack(s, a, holder) + extra
    ensures Apart(cfg, env, holder) && ProposalPaysElsewhere(cfg, p, holder) ==> extra == 0
  {
    extra := 0;
    var claim := ClaimOf(cfg, s, p);
    if claim.Success? {
      extra := PayCosts(cfg, env, s, claim.value, a, holder);
      var paid := Pay(cfg, env, s, claim.value);
      if paid.error.Some? {
        FailureCosts(paid.state, p, paid.error.value, a, holder);
      } else {
        ExecutionCosts(cfg, paid.state, p, claim.value, a, holder);
      }
    }
  }

  lemma {:induction false} BatchKeepsSlack(cfg: Config, env: Env, s: State, ps: seq<Proposal>, a: AssetId,
                                           holder: Account)
    returns (extra: nat)
    requires Reserves(cfg, a, holder)
    ensures Slack(ExecuteAll(cfg, env, s, ps), a, holder) == Slack(s, a, holder) + extra
    ensures Apart(cfg, env, holder) && (forall p :: p in ps ==> ProposalPaysElsewhere(cfg, p, holder)) ==> extra == 0
    decreases |ps|
  {
    extra := 0;
    if ps != [] {
      var before := BatchKeepsSlack(cfg, env, s, ps[..|ps| - 1], a, holder);
      var last := ProposalKeepsSlack(cfg, env, ExecuteAll(cfg, env, s, ps[..|ps| - 1]), ps[|ps| - 1], a, holder);
      extra := before + last;
    }
  }

  /**
   * Nothing but the bridge takes from the reserve: its holder signs no deposit, and other activity does not drain it.
   */
  predicate Undrained(s: State, call: Call, a: AssetId, holder: Account) {
    && (call.MakeDeposit? ==> call.origin != Signed(holder))
    && (call.Elsewhere? ==> Balance(call.balances, a, holder) >= Balance(s.ledger, a, holder))
  }

  /** And nothing but the bridge gives to it either. */
  ghost predicate Unfed(cfg: Config, s: State, step: Step, a: AssetId, holder: Account) {
    && Apart(cfg, step.env, holder)
    && (step.call.Execute? ==> forall p :: p in step.call.proposals ==> ProposalPaysElsewhere(cfg, p, holder))
    && (step.call.Elsewhere? ==> Balance(step.call.balances, a, holder) <= Balance(s.ledger, a, holder))
  }

  lemma AdminMovesNothing(cfg: Config, env: Env, s: State, call: Call)
    requires !call.MakeDeposit? && !call.Execute? && Dispatch(cfg, env, s, call).Success?
    ensures var s' := Dispatch(cfg, env, s, call).value;
            s'.flows == s.flows && s'.ledger == if call.Elsewhere? then call.balances else s.ledger
  {}

  lemma CallKeepsSlack(cfg: Config, s: State, step: Step, a: AssetId, holder: Account) returns (extra: nat)
    requires Reserves(cfg, a, holder) && Undrained(s, step.call, a, holder)
    ensures Slack(Next(cfg, s, step), a, holder) == Slack(s, a, holder) + extra
    ensures Unfed(cfg, s, step, a, holder) ==> extra == 0
  {
    extra := 0;
    if Dispatch(cfg, step.env, s, step.call).Success? {
      match step.call
      case MakeDeposit(origin, asset, dest) =>
        extra := DepositKeepsSlack(cfg, step.env, s, origin, asset, dest, a, holder);
      case Execute(ps, _) => extra := BatchKeepsSlack(cfg, step.env, s, ps, a, holder);
      case Elsewhere(l) => extra := Balance(l, a, holder) - Balance(s.ledger, a, holder);
      case _ => AdminMovesNothing(cfg, step.env, s, step.call);
    }
  }

  ghost predicate AllUndrained(cfg: Config, s: State, steps: seq<Step>, a: AssetId, holder: Account) {
    forall i :: 0 <= i < |steps| ==> Undrained(Run(cfg, s, steps[..i]), steps[i].call, a, holder)
  }

  ghost predicate AllUnfed(cfg: Config, s: State, steps: seq<Step>, a: AssetId, holder: Account) {
    forall i :: 0 <= i < |steps| ==> Unfed(cfg, Run(cfg, s, steps[..i]), steps[i], a, holder)
  }

  lemma EarlierSteps(cfg: Config, s: State, steps: seq<Step>, a: AssetId, holder: Account)
    requires steps != []
    ensures var k := |steps| - 1;
            && (AllUndrained(cfg, s, steps, a, holder) ==>
                  AllUndrained(cfg, s, steps[..k], a, holder)
                  && Undrained(Run(cfg, s, steps[..k]), steps[k].call, a, holder))
            && (AllUnfed(cfg, s, steps, a, holder) ==>
                  AllUnfed(cfg, s, steps[..k], a, holder) && Unfed(cfg, Run(cfg, s, steps[..k]), steps[k], a, holder))
  {
    var init := steps[..|steps| - 1];
    forall i | 0 <= i < |init|
      ensures init[..i] == steps[..i] && init[i] == steps[i]
    {}
  }

  /**
   * In every run in which only the bridge draws on it, the reserve holds at least what it started with, plus
   * everything locked, minus everything released, minus what failed second legs left stranded - through nested
   * forwarding and partial failures alike.  When nothing else feeds it either, it holds exactly that.
   */
  lemma {:induction false} ReserveBacksTheBridge(cfg: Config, balances: Ledger, steps: seq<Step>, a: AssetId,
                                                 holder: Account)
    requires Reserves(cfg, a, holder) && AllUndrained(cfg, Genesis(balances), steps, a, holder)
    ensures Slack(Run(cfg, Genesis(balances), steps), a, holder) >= Balance(balances, a, holder)
    ensures AllUnfed(cfg, Genesis(balances), steps, a, holder) ==>
              Slack(Run(cfg, Genesis(balances), steps), a, holder) == Balance(balances, a, holder)
    decreases |steps|
  {
    if steps != [] {
      var k := |steps| - 1;
      EarlierSteps(cfg, Genesis(balances), steps, a, holder);
      ReserveBacksTheBridge(cfg, balances, steps[..k], a, holder);
      var extra := CallKeepsSlack(cfg, Run(cfg, Genesis(balances), steps[..k]), steps[k], a, holder);
    }
  }

  /** Both together: with honest relayers only stranded payments can take the reserve below where it started. */
  lemma ReserveNeverFallsShort(cfg: Config, pairs: seq<(AssetId, u8)>, balances: Ledger, steps: seq<Step>,
                               a: AssetId, holder: Account)
    requires ConvertsWith(cfg, pairs) && Reserves(cfg, a, holder)
    requires AllUndrained(cfg, Genesis(balances), steps, a, holder)
    requires var flows := Run(cfg, Genesis(balances), steps).flows;
             Total(flows, a, Presented) <= Total(flows, a, Announced)
    ensures var s := Run(cfg, Genesis(balances), steps);
            Balance(s.ledger, a, holder) + Total(s.flows, a, Missing) >= Balance(balances, a, holder)
  {
    ReserveBacksTheBridge(cfg, balances, steps, a, holder);
    ReleasedNeverExceedsLocked(cfg, pairs, balances, steps, a);
  }
}
