/**
 * Proposals that fail after their first leg.  The error of a proposal is caught, not rolled back: what the reserve had
 * parted with is gone from it while the nonce stays unused.
 */
module Stranding {
  import opened Prelude
  import opened Xcm
  import opened Ledgers
  import opened Eip712
  import opened Bridge
  import opened Batches
  import opened Acceptance
  import opened Atoms
  import opened Solvency
  import opened SygmaRuntime
  import DepositData
  import Forwarding
  import Words

  // ---- Recipients on this chain

  ghost predicate SameBalances(l: Ledger, l': Ledger) {
    forall a, who :: Balance(l', a, who) == Balance(l, a, who)
  }

  /** The proposal is due and its first leg takes something from a reserve. */
  predicate Debits(cfg: Config, env: Env, s: State, p: Proposal) {
    && Due(s, p) && Asked(cfg, p).Some?
    && (var c := Asked(cfg, p).value; Reserved(cfg, c) && Withdrawable(cfg, env, s.ledger, c) && c.amount > 0)
  }

  predicate Succeeds(cfg: Config, env: Env, s: State, p: Proposal) {
    Due(s, p) && Asked(cfg, p).Some? && Payable(cfg, env, s.ledger, Asked(cfg, p).value)
  }

  /** A failed proposal leaves all balances alone exactly when its first leg took nothing. */
  lemma FailureKeepsBalancesExactlyWhen(cfg: Config, env: Env, s: State, p: Proposal)
    requires LocalRecipient(cfg, p) && !Succeeds(cfg, env, s, p)
    ensures SameBalances(s.ledger, ExecuteOne(cfg, env, s, p).ledger) <==> !Debits(cfg, env, s, p)
  {
    LocalProposalIsPaidExactlyWhen(cfg, env, s, p);
    if Debits(cfg, env, s, p) {
      var c := Asked(cfg, p).value;
      DebitShows(s.ledger, c.asset, c.reserve, c.amount);
    }
  }

  lemma DebitShows(l: Ledger, a: AssetId, who: Account, amount: nat)
    requires 0 < amount <= Balance(l, a, who)
    ensures !SameBalances(l, Debit(l, a, who, amount))
  {
    assert Balance(Debit(l, a, who, amount), a, who) != Balance(l, a, who);
  }

  // ---- Trying again

  function Copies(p: Proposal, n: nat): seq<Proposal> {
    if n == 0 then [] else Copies(p, n - 1) + [p]
  }

  /** Nobody can receive the claim here, while its reserve may always be drawn on. */
  ghost predicate Undeliverable(cfg: Config, env: Env, c: Claim) {
    && Reserved(cfg, c)
    && (forall l :: env.canWithdraw(l, Units(c.asset, c.amount), c.reserve))
    && (forall l :: !Receivable(cfg, env, l, c))
  }

  lemma ClaimFails(cfg: Config, env: Env, l: Ledger, c: Claim)
    requires Undeliverable(cfg, env, c) && c.amount <= Balance(l, c.asset, c.reserve)
    ensures !Payable(cfg, env, l, c)
    ensures BalancesAfter(cfg, env, l, c) == Debit(l, c.asset, c.reserve, c.amount)
  {}

  lemma OneAttempt(cfg: Config, env: Env, s: State, p: Proposal, c: Claim)
    requires LocalRecipient(cfg, p) && Due(s, p) && Asked(cfg, p) == Some(c) && Undeliverable(cfg, env, c)
    requires c.amount <= Balance(s.ledger, c.asset, c.reserve)
    ensures var s' := ExecuteOne(cfg, env, s, p);
            && s'.ledger == Debit(s.ledger, c.asset, c.reserve, c.amount)
            && s'.used == s.used && Due(s', p)
  {
    LocalProposalIsPaidExactlyWhen(cfg, env, s, p);
    ClaimFails(cfg, env, s.ledger, c);
    ProposalKeepsRules(cfg, env, s, p);
  }

  /** Every further attempt at an undeliverable proposal costs the reserve its amount again, and uses no nonce. */
  lemma {:induction false} AttemptsAddUp(cfg: Config, env: Env, s: State, p: Proposal, c: Claim, n: nat)
    requires LocalRecipient(cfg, p) && Due(s, p) && Asked(cfg, p) == Some(c) && Undeliverable(cfg, env, c)
    requires n * c.amount <= Balance(s.ledger, c.asset, c.reserve)
    ensures var s' := ExecuteAll(cfg, env, s, Copies(p, n));
            && Balance(s'.ledger, c.asset, c.reserve) == Balance(s.ledger, c.asset, c.reserve) - n * c.amount
            && s'.used == s.used && Due(s', p)
    decreases n
  {
    if n > 0 {
      OneMoreTime(n, c.amount);
      AttemptsAddUp(cfg, env, s, p, c, n - 1);
      assert Copies(p, n)[..|Copies(p, n)| - 1] == Copies(p, n - 1);
      OneAttempt(cfg, env, ExecuteAll(cfg, env, s, Copies(p, n - 1)), p, c);
    }
  }

  /** The proposal alone, in a batch that the MPC key has signed, presented in `n` calls. */
  function Calls(env: Env, p: Proposal, signature: Bytes, n: nat): seq<Step> {
    if n == 0 then [] else Calls(env, p, signature, n - 1) + [Step(env, Execute([p], signature))]
  }

  predicate IsSigned(cfg: Config, env: Env, s: State, p: Proposal, signature: Bytes) {
    !IsClear(s.mpc) && env.verifies(cfg.message([p]), signature, s.mpc)
  }

  lemma SingleBatch(cfg: Config, env: Env, s: State, p: Proposal)
    ensures ExecuteAll(cfg, env, s, [p]) == ExecuteOne(cfg, env, s, p)
  {
    assert [p][..0] == [];
    assert ExecuteAll(cfg, env, s, []) == s;
  }

  lemma SignedBatch(cfg: Config, env: Env, s: State, ps: seq<Proposal>, signature: Bytes)
    requires ps != [] && !IsClear(s.mpc) && env.verifies(cfg.message(ps), signature, s.mpc)
    ensures ExecuteProposals(cfg, env, s, ps, signature) == Success(ExecuteAll(cfg, env, s, ps))
  {}

  lemma ExecutingCall(cfg: Config, env: Env, s: State, ps: seq<Proposal>, signature: Bytes, s': State)
    requires ExecuteProposals(cfg, env, s, ps, signature) == Success(s')
    ensures Next(cfg, s, Step(env, Execute(ps, signature))) == s'
  {
    assert Dispatch(cfg, env, s, Execute(ps, signature)) == Success(s');
  }

  lemma OneCall(cfg: Config, env: Env, s: State, p: Proposal, signature: Bytes)
    requires IsSigned(cfg, env, s, p, signature)
    ensures Next(cfg, s, Step(env, Execute([p], signature))) == ExecuteOne(cfg, env, s, p)
    ensures IsSigned(cfg, env, ExecuteOne(cfg, env, s, p), p, signature)
  {
    SingleBatch(cfg, env, s, p);
    SignedBatch(cfg, env, s, [p], signature);
    ExecutingCall(cfg, env, s, [p], signature, ExecuteOne(cfg, env, s, p));
    ProposalKeepsRules(cfg, env, s, p);
  }

  lemma OneMoreCall(cfg: Config, env: Env, s: State, p: Proposal, signature: Bytes, n: nat)
    requires n > 0 && IsSigned(cfg, env, Run(cfg, s, Calls(env, p, signature, n - 1)), p, signature)
    ensures var mid, s' := Run(cfg, s, Calls(env, p, signature, n - 1)), Run(cfg, s, Calls(env, p, signature, n));
            s' == ExecuteOne(cfg, env, mid, p) && IsSigned(cfg, env, s', p, signature)
  {
    var steps := Calls(env, p, signature, n);
    assert steps[..|steps| - 1] == Calls(env, p, signature, n - 1);
    OneCall(cfg, env, Run(cfg, s, Calls(env, p, signature, n - 1)), p, signature);
  }

  /** A signed, due proposal for this chain whose claim nobody can receive. */
  ghost predicate Losing(cfg: Config, env: Env, s: State, p: Proposal, c: Claim, signature: Bytes) {
    && LocalRecipient(cfg, p) && Due(s, p) && Asked(cfg, p) == Some(c) && Undeliverable(cfg, env, c)
    && IsSigned(cfg, env, s, p, signature)
  }

  lemma LosingCall(cfg: Config, env: Env, s: State, p: Proposal, c: Claim, signature: Bytes, n: nat)
    requires n > 0
    requires var mid := Run(cfg, s, Calls(env, p, signature, n - 1));
             Losing(cfg, env, mid, p, c, signature) && c.amount <= Balance(mid.ledger, c.asset, c.reserve)
    ensures var mid, s' := Run(cfg, s, Calls(env, p, signature, n - 1)), Run(cfg, s, Calls(env, p, signature, n));
            && Balance(s'.ledger, c.asset, c.reserve) == Balance(mid.ledger, c.asset, c.reserve) - c.amount
            && s'.used == mid.used && Losing(cfg, env, s', p, c, signature)
  {
    OneMoreCall(cfg, env, s, p, signature, n);
    OneAttempt(cfg, env, Run(cfg, s, Calls(env, p, signature, n - 1)), p, c);
  }

  lemma OneMoreTime(n: nat, amount: nat)
    requires n > 0
    ensures n * amount == (n - 1) * amount + amount && (n - 1) * amount >= 0
  {}

  /** The same over calls: a signed undeliverable proposal costs its amount in every call that presents it. */
  lemma {:induction false} CallsAddUp(cfg: Config, env: Env, s: State, p: Proposal, c: Claim, signature: Bytes, n: nat)
    requires Losing(cfg, env, s, p, c, signature) && n * c.amount <= Balance(s.ledger, c.asset, c.reserve)
    ensures var s' := Run(cfg, s, Calls(env, p, signature, n));
            && Balance(s'.ledger, c.asset, c.reserve) == Balance(s.ledger, c.asset, c.reserve) - n * c.amount
            && s'.used == s.used && Losing(cfg, env, s', p, c, signature)
    decreases n
  {
    if n > 0 {
      OneMoreTime(n, c.amount);
      CallsAddUp(cfg, env, s, p, c, signature, n - 1);
      LosingCall(cfg, env, s, p, c, signature, n);
    }
  }

  // ---- An instance

  const TOKEN: AssetId := Concrete(HERE)
  const RESOURCE: ResourceId := Words.Word(0)

  /** One reserved asset, held by account 1, and a bridge that reads every recipient as account 2. */
  function SampleConfig(): Config {
    Config(map[TOKEN := 1], 3, [(TOKEN, RESOURCE)], asset => true, (a, n) => Some(n), (a, n) => Some(n),
           ps => RESOURCE, bytes => RESOURCE, [], dest => None, bytes => Some(AccountLocation(2)), loc => None, 4, 5)
  }

  /** Balance rules that let everybody pay and nobody receive. */
  function SampleEnv(): Env {
    Env((name, origin) => true, (d, asset) => None, (l, asset, from) => true, (l, asset, to) => false,
        (l, from, asset, dest) => Refused, (message, signature, address) => true)
  }

  function SampleState(reserve: nat): State {
    State(map[], map[], 1, {}, map[7 := true], map[7 := 7], map[(TOKEN, 1) := reserve], [], [])
  }

  function SampleProposal(amount: u128): Proposal {
    Proposal(7, 0, RESOURCE, DepositData.Create(amount, []))
  }

  lemma SampleAsks(amount: u128)
    ensures LocalRecipient(SampleConfig(), SampleProposal(amount))
    ensures Asked(SampleConfig(), SampleProposal(amount)) == Some(Claim(TOKEN, amount, AccountLocation(2), 1))
    ensures Undeliverable(SampleConfig(), SampleEnv(), Claim(TOKEN, amount, AccountLocation(2), 1))
  {
    DepositData.ExtractCreate(SampleConfig().decodeLocation, amount, []);
    assert SampleConfig().resources[0].1 == RESOURCE;
  }

  /** Executing this proposal empties the reserve, pays nobody and uses no nonce. */
  lemma FailureLosesBalance(amount: u128)
    requires amount > 0
    ensures var s, p := SampleState(amount), SampleProposal(amount);
            var s' := ExecuteOne(SampleConfig(), SampleEnv(), s, p);
            && !Succeeds(SampleConfig(), SampleEnv(), s, p) && !SameBalances(s.ledger, s'.ledger)
            && Balance(s.ledger, TOKEN, 1) == amount && Balance(s'.ledger, TOKEN, 1) == 0
            && Balance(s'.ledger, TOKEN, 2) == 0 && s'.used == {}
  {
    SampleAsks(amount);
    OneAttempt(SampleConfig(), SampleEnv(), SampleState(amount), SampleProposal(amount),
               Claim(TOKEN, amount, AccountLocation(2), 1));
    DebitShows(SampleState(amount).ledger, TOKEN, 1, amount);
  }

  // ---- Any recipient: when something is stranded

  /** The second leg goes through from these balances, by whatever route. */
  predicate Deliverable(cfg: Config, env: Env, s: State, c: Claim) {
    match RouteOf(c.to)
    case Local => Receivable(cfg, env, s.ledger, c)
    case OtherWorld =>
      && env.canDeposit(s.ledger, Units(c.asset, c.amount), AccountLocation(cfg.bridgeTransit))
      && Deposit(cfg, env, s.(ledger := Credit(s.ledger, c.asset, cfg.bridgeTransit, c.amount)),
                 Signed(cfg.bridgeTransit), Units(c.asset, c.amount), c.to).Success?
    case RemoteChain =>
      && env.canDeposit(s.ledger, Units(c.asset, c.amount), AccountLocation(cfg.xcmTransit))
      && (var sent := env.sendXcm(Credit(s.ledger, c.asset, cfg.xcmTransit, c.amount), cfg.xcmTransit,
                                  Units(c.asset, c.amount), c.to);
          sent.Sent? && sent.complete)
  }

  lemma SentExactlyWhen(cfg: Config, env: Env, s: State, a: AssetId, amount: u128, who: MultiLocation)
    ensures ForwardToXcm(cfg, env, s, a, amount, who).ok <==>
            && env.canDeposit(s.ledger, Units(a, amount), AccountLocation(cfg.xcmTransit))
            && (var sent := env.sendXcm(Credit(s.ledger, a, cfg.xcmTransit, amount), cfg.xcmTransit, Units(a, amount),
                                        who);
                sent.Sent? && sent.complete)
  {}

  lemma ForwardedExactlyWhen(cfg: Config, env: Env, s: State, a: AssetId, amount: u128, who: MultiLocation)
    ensures ForwardToBridge(cfg, env, s, a, amount, who).ok <==>
            && env.canDeposit(s.ledger, Units(a, amount), AccountLocation(cfg.bridgeTransit))
            && Deposit(cfg, env, s.(ledger := Credit(s.ledger, a, cfg.bridgeTransit, amount)),
                       Signed(cfg.bridgeTransit), Units(a, amount), who).Success?
  {}

  lemma DeliveredExactlyWhen(cfg: Config, env: Env, s: State, c: Claim)
    ensures DepositAsset(cfg, env, s, c.asset, c.amount, c.to).ok <==> Deliverable(cfg, env, s, c)
  {
    match RouteOf(c.to)
    case Local =>
    case OtherWorld => ForwardedExactlyWhen(cfg, env, s, c.asset, c.amount, c.to);
    case RemoteChain => SentExactlyWhen(cfg, env, s, c.asset, c.amount, c.to);
  }

  /** The proposal is due, takes a positive amount of `a` from its reserve, and cannot deliver it. */
  predicate Strands(cfg: Config, env: Env, s: State, p: Proposal, a: AssetId) {
    && Debits(cfg, env, s, p)
    && (var c := Asked(cfg, p).value;
        c.asset == a && !Deliverable(cfg, env, s.(ledger := AfterReserve(cfg, s.ledger, c)), c))
  }

  function StrandedNow(cfg: Config, env: Env, s: State, p: Proposal, a: AssetId): nat {
    if Strands(cfg, env, s, p, a) then Asked(cfg, p).value.amount else 0
  }

  lemma SettlingStrandsNothing(s: State, t: Terms, a: AssetId)
    requires Count(s.counts, t.domain) + 1 < TWO_64 && t.fee < t.amount
    ensures Total(Settle(s, t).flows, a, Missing) == Total(s.flows, a, Missing)
  {
    TotalOne(s.flows, Outbound(t.domain, t.asset, t.amount - t.fee, t.announced), a, Missing);
  }

  lemma DepositStrandsNothing(cfg: Config, env: Env, s: State, origin: Origin, asset: MultiAsset, dest: MultiLocation,
                              a: AssetId)
    requires Deposit(cfg, env, s, origin, asset, dest).Success?
    ensures Total(Deposit(cfg, env, s, origin, asset, dest).value.flows, a, Missing) == Total(s.flows, a, Missing)
  {
    SettlingStrandsNothing(s, TermsOf(cfg, env, s, origin, asset, dest).value, a);
  }

  lemma ForwardingStrandsNothing(cfg: Config, env: Env, s: State, b: AssetId, amount: u128, who: MultiLocation,
                                 a: AssetId)
    ensures Total(ForwardToBridge(cfg, env, s, b, amount, who).state.flows, a, Missing) == Total(s.flows, a, Missing)
  {
    var s1 := DepositLocally(cfg, env, s, b, amount, AccountLocation(cfg.bridgeTransit)).state;
    if ForwardToBridge(cfg, env, s, b, amount, who).ok {
      DepositStrandsNothing(cfg, env, s1, Signed(cfg.bridgeTransit), Units(b, amount), who, a);
    }
  }

  lemma RoutingStrandsNothing(cfg: Config, env: Env, s: State, b: AssetId, amount: u128, who: MultiLocation, a: AssetId)
    ensures Total(DepositAsset(cfg, env, s, b, amount, who).state.flows, a, Missing) == Total(s.flows, a, Missing)
  {
    match RouteOf(who)
    case Local =>
    case OtherWorld => ForwardingStrandsNothing(cfg, env, s, b, amount, who, a);
    case RemoteChain => assert ForwardToXcm(cfg, env, s, b, amount, who).state.flows == s.flows;
  }

  lemma DeliveryStrands(cfg: Config, env: Env, s: State, c: Claim, a: AssetId)
    ensures var r := Deliver(cfg, env, s, c);
            && (r.error.None? <==> Deliverable(cfg, env, s, c))
            && Total(r.state.flows, a, Missing)
               == Total(s.flows, a, Missing) + Gain(r.error.Some? && Reserved(cfg, c) && c.asset == a, c.amount)
  {
    DeliveredExactlyWhen(cfg, env, s, c);
    RoutingStrandsNothing(cfg, env, s, c.asset, c.amount, c.to, a);
    TotalOne(DepositAsset(cfg, env, s, c.asset, c.amount, c.to).state.flows, Stranded(c.asset, c.amount), a, Missing);
  }

  lemma PaymentStrands(cfg: Config, env: Env, s: State, c: Claim, a: AssetId)
    ensures var l := s.ledger;
            Total(Pay(cfg, env, s, c).state.flows, a, Missing)
            == Total(s.flows, a, Missing)
               + Gain(Reserved(cfg, c) && c.asset == a && Withdrawable(cfg, env, l, c)
                      && !Deliverable(cfg, env, s.(ledger := AfterReserve(cfg, l, c)), c), c.amount)
  {
    var s1 := Withdraw(cfg, env, s, c);
    assert s1.Some? <==> Withdrawable(cfg, env, s.ledger, c);
    if s1.Some? {
      assert s1.value == s.(ledger := AfterReserve(cfg, s.ledger, c));
      DeliveryStrands(cfg, env, s1.value, c, a);
    }
  }

  lemma VerdictStrandsNothing(s: State, s': State, p: Proposal, c: Claim, a: AssetId)
    requires s'.flows == s.flows || s'.flows == s.flows + [Inbound(p, c.asset, c.amount, c.to)]
    ensures Total(s'.flows, a, Missing) == Total(s.flows, a, Missing)
  {
    TotalOne(s.flows, Inbound(p, c.asset, c.amount, c.to), a, Missing);
  }

  /** A proposal adds to what is stranded exactly what it takes and cannot deliver. */
  lemma ProposalStrands(cfg: Config, env: Env, s: State, p: Proposal, a: AssetId)
    ensures Total(ExecuteOne(cfg, env, s, p).flows, a, Missing)
            == Total(s.flows, a, Missing) + StrandedNow(cfg, env, s, p, a)
  {
    ClaimIsAsked(cfg, s, p);
    var claim := ClaimOf(cfg, s, p);
    if claim.Success? {
      PaymentStrands(cfg, env, s, claim.value, a);
      VerdictStrandsNothing(Pay(cfg, env, s, claim.value).state, ExecuteOne(cfg, env, s, p), p, claim.value, a);
    }
  }

  /** No proposal of the batch strands any of `a` in the state it is reached in. */
  predicate BatchDelivers(cfg: Config, env: Env, s: State, ps: seq<Proposal>, a: AssetId)
    decreases |ps|
  {
    ps == [] ||
    (var init, p := ps[..|ps| - 1], ps[|ps| - 1];
     BatchDelivers(cfg, env, s, init, a) && !Strands(cfg, env, ExecuteAll(cfg, env, s, init), p, a))
  }

  lemma {:induction false} BatchStrands(cfg: Config, env: Env, s: State, ps: seq<Proposal>, a: AssetId)
    ensures var before, after := Total(s.flows, a, Missing), Total(ExecuteAll(cfg, env, s, ps).flows, a, Missing);
            before <= after && (before == after <==> BatchDelivers(cfg, env, s, ps, a))
    decreases |ps|
  {
    if ps != [] {
      var k := |ps| - 1;
      BatchStrands(cfg, env, s, ps[..k], a);
      ProposalStrands(cfg, env, ExecuteAll(cfg, env, s, ps[..k]), ps[k], a);
    }
  }

  predicate Delivers(cfg: Config, s: State, step: Step, a: AssetId) {
    step.call.Execute? && Dispatch(cfg, step.env, s, step.call).Success? ==>
      BatchDelivers(cfg, step.env, s, step.call.proposals, a)
  }

  /** No executed batch of the run strands any of `a`. */
  predicate AllDeliver(cfg: Config, s: State, steps: seq<Step>, a: AssetId)
    decreases |steps|
  {
    steps == [] ||
    (var init, step := steps[..|steps| - 1], steps[|steps| - 1];
     AllDeliver(cfg, s, init, a) && Delivers(cfg, Run(cfg, s, init), step, a))
  }

  lemma CallStrands(cfg: Config, s: State, step: Step, a: AssetId)
    ensures var before, after := Total(s.flows, a, Missing), Total(Next(cfg, s, step).flows, a, Missing);
            before <= after && (before == after <==> Delivers(cfg, s, step, a))
  {
    if Dispatch(cfg, step.env, s, step.call).Success? {
      match step.call
      case MakeDeposit(origin, asset, dest) => DepositStrandsNothing(cfg, step.env, s, origin, asset, dest, a);
      case Execute(ps, _) => BatchStrands(cfg, step.env, s, ps, a);
      case _ => AdminMovesNothing(cfg, step.env, s, step.call);
    }
  }

  /** A run strands nothing of an asset exactly when every proposal it executes can deliver what it takes. */
  lemma {:induction false} RunStrandsNothingExactlyWhen(cfg: Config, balances: Ledger, steps: seq<Step>, a: AssetId)
    ensures Total(Run(cfg, Genesis(balances), steps).flows, a, Missing) == 0 <==>
            AllDeliver(cfg, Genesis(balances), steps, a)
    decreases |steps|
  {
    if steps != [] {
      var k := |steps| - 1;
      RunStrandsNothingExactlyWhen(cfg, balances, steps[..k], a);
      CallStrands(cfg, Run(cfg, Genesis(balances), steps[..k]), steps[k], a);
    }
  }

  /**
   * So in every run in which relayers present no more than was announced, only the bridge draws on the reserve and
   * every proposal can deliver, the reserve never falls below where it started.
   */
  lemma ReserveStaysWhole(cfg: Config, pairs: seq<(AssetId, u8)>, balances: Ledger, steps: seq<Step>,
                          a: AssetId, holder: Account)
    requires ConvertsWith(cfg, pairs) && Reserves(cfg, a, holder)
    requires AllUndrained(cfg, Genesis(balances), steps, a, holder) && AllDeliver(cfg, Genesis(balances), steps, a)
    requires var flows := Run(cfg, Genesis(balances), steps).flows;
             Total(flows, a, Presented) <= Total(flows, a, Announced)
    ensures Balance(Run(cfg, Genesis(balances), steps).ledger, a, holder) >= Balance(balances, a, holder)
  {
    ReserveNeverFallsShort(cfg, pairs, balances, steps, a, holder);
    RunStrandsNothingExactlyWhen(cfg, balances, steps, a);
  }

  /** In particular for every asset that the runtime's reserve check accepts, whatever the amount it was asked about. */
  lemma RuntimeReserveStaysWhole(cfg: Config, pairs: seq<(AssetId, u8)>, balances: Ledger, steps: seq<Step>,
                                 a: AssetId, n: u128, holder: Account)
    requires ConvertsWith(cfg, pairs) && forall asset :: cfg.isReserve(asset) == IsReserve(asset)
    requires IsReserve(Units(a, n)) && Lookup(cfg.reserveAccounts, a) == Some(holder)
    requires holder != cfg.bridgeTransit && holder != cfg.xcmTransit
    requires AllUndrained(cfg, Genesis(balances), steps, a, holder) && AllDeliver(cfg, Genesis(balances), steps, a)
    requires var flows := Run(cfg, Genesis(balances), steps).flows;
             Total(flows, a, Presented) <= Total(flows, a, Announced)
    ensures Balance(Run(cfg, Genesis(balances), steps).ledger, a, holder) >= Balance(balances, a, holder)
  {
    RuntimeReserves(cfg, a, holder, n);
    ReserveStaysWhole(cfg, pairs, balances, steps, a, holder);
  }

  // ---- Recipients in another domain

  /** A claim for a recipient in another domain whose location the bridge cannot read is not deliverable. */
  lemma UnreadableClaimsFail(cfg: Config, env: Env, s: State, c: Claim)
    requires RouteOf(c.to).OtherWorld? && cfg.extractDest(c.to).None?
    ensures !Deliverable(cfg, env, s, c)
  {}

  /** With a shipped parser that is every such claim, whatever the state and the rules. */
  lemma ForwardedClaimsFail(cfg: Config, env: Env, s: State, c: Claim)
    requires Forwarding.UsesShippedParser(cfg) && RouteOf(c.to).OtherWorld?
    ensures cfg.extractDest(c.to).None? && !Deliverable(cfg, env, s, c)
  {
    Forwarding.ShippedParsersMiss(cfg, c.to);
    UnreadableClaimsFail(cfg, env, s, c);
  }

  predicate Creditable(cfg: Config, env: Env, l: Ledger, c: Claim) {
    env.canDeposit(l, Units(c.asset, c.amount), AccountLocation(cfg.bridgeTransit))
  }

  /** The balances an undeliverable claim on its way to another domain leaves behind. */
  function BalancesInTransit(cfg: Config, env: Env, l: Ledger, c: Claim): Ledger {
    if !Withdrawable(cfg, env, l, c) then l
    else
      var l1 := AfterReserve(cfg, l, c);
      if Creditable(cfg, env, l1, c) then Credit(l1, c.asset, cfg.bridgeTransit, c.amount) else l1
  }

  /** The second leg of the claim cannot go through once the first has. */
  predicate StaysInTransit(cfg: Config, env: Env, s: State, c: Claim) {
    && RouteOf(c.to).OtherWorld?
    && (Withdrawable(cfg, env, s.ledger, c) ==>
          !Deliverable(cfg, env, s.(ledger := AfterReserve(cfg, s.ledger, c)), c))
  }

  lemma PaymentInTransit(cfg: Config, env: Env, s: State, c: Claim)
    requires StaysInTransit(cfg, env, s, c)
    ensures var paid := Pay(cfg, env, s, c);
            && paid.error.Some?
            && paid.state.ledger == BalancesInTransit(cfg, env, s.ledger, c)
            && paid.state.used == s.used && (!Reserved(cfg, c) ==> paid.state.flows == s.flows)
  {
    var s1 := Withdraw(cfg, env, s, c);
    assert s1.Some? <==> Withdrawable(cfg, env, s.ledger, c);
    if s1.Some? {
      assert s1.value == s.(ledger := AfterReserve(cfg, s.ledger, c));
      DeliveredExactlyWhen(cfg, env, s1.value, c);
      Forwarding.FailedForwardingStaysInTransit(cfg, env, s1.value, c.asset, c.amount, c.to);
    }
  }

  /**
   * A failed proposal for another domain uses no nonce and leaves its amount with the transit account if that could be
   * credited.  For an asset that is not reserved here nothing was withdrawn before: this is new issuance, of which the
   * history of flows records nothing, and balances are kept exactly when the transit account could not be credited or
   * there was nothing to credit.
   */
  lemma FailedForwardingIssues(cfg: Config, env: Env, s: State, p: Proposal, c: Claim)
    requires Due(s, p) && Asked(cfg, p) == Some(c) && StaysInTransit(cfg, env, s, c)
    ensures var s' := ExecuteOne(cfg, env, s, p);
            && s'.ledger == BalancesInTransit(cfg, env, s.ledger, c) && s'.used == s.used && Due(s', p)
            && (!Reserved(cfg, c) ==>
                  && Issuance(s'.ledger, c.asset)
                     == Issuance(s.ledger, c.asset) + Gain(Creditable(cfg, env, s.ledger, c), c.amount)
                  && s'.flows == s.flows
                  && (SameBalances(s.ledger, s'.ledger) <==> !(Creditable(cfg, env, s.ledger, c) && c.amount > 0)))
  {
    ClaimIsAsked(cfg, s, p);
    PaymentInTransit(cfg, env, s, c);
    ProposalKeepsRules(cfg, env, s, p);
    CreditIssues(s.ledger, c.asset, cfg.bridgeTransit, c.amount, c.asset);
    CreditShows(s.ledger, c.asset, cfg.bridgeTransit, c.amount);
  }

  lemma CreditShows(l: Ledger, a: AssetId, who: Account, amount: nat)
    ensures SameBalances(l, Credit(l, a, who, amount)) <==> amount == 0
  {
    assert Balance(Credit(l, a, who, amount), a, who) == Balance(l, a, who) + amount;
  }

  /** With a shipped parser the route alone decides: every due proposal for another domain fails that way. */
  lemma ShippedParserIssues(cfg: Config, env: Env, s: State, p: Proposal, c: Claim)
    requires Forwarding.UsesShippedParser(cfg)
    requires Due(s, p) && Asked(cfg, p) == Some(c) && RouteOf(c.to).OtherWorld?
    ensures var s' := ExecuteOne(cfg, env, s, p);
            && s'.ledger == BalancesInTransit(cfg, env, s.ledger, c) && s'.used == s.used && Due(s', p)
            && (!Reserved(cfg, c) ==>
                  && Issuance(s'.ledger, c.asset)
                     == Issuance(s.ledger, c.asset) + Gain(Creditable(cfg, env, s.ledger, c), c.amount)
                  && s'.flows == s.flows)
  {
    if Withdrawable(cfg, env, s.ledger, c) {
      ForwardedClaimsFail(cfg, env, s.(ledger := AfterReserve(cfg, s.ledger, c)), c);
    }
    FailedForwardingIssues(cfg, env, s, p, c);
  }

  /**
   * A signed, due proposal for another domain in an asset not reserved here, with a recipient the bridge cannot read -
   * as with either shipped parser it never can - and a transit account to credit.
   */
  ghost predicate Issuing(cfg: Config, env: Env, s: State, p: Proposal, c: Claim, signature: Bytes) {
    && Due(s, p) && Asked(cfg, p) == Some(c) && !Reserved(cfg, c)
    && RouteOf(c.to).OtherWorld? && cfg.extractDest(c.to).None?
    && IsSigned(cfg, env, s, p, signature) && forall l :: Creditable(cfg, env, l, c)
  }

  lemma OneIssue(cfg: Config, env: Env, s: State, p: Proposal, c: Claim, signature: Bytes)
    requires Issuing(cfg, env, s, p, c, signature)
    ensures var s' := ExecuteOne(cfg, env, s, p);
            && Issuance(s'.ledger, c.asset) == Issuance(s.ledger, c.asset) + c.amount
            && s'.used == s.used && s'.flows == s.flows && Due(s', p)
  {
    assert Creditable(cfg, env, s.ledger, c);
    UnreadableClaimsFail(cfg, env, s.(ledger := AfterReserve(cfg, s.ledger, c)), c);
    FailedForwardingIssues(cfg, env, s, p, c);
  }

  lemma IssuingCall(cfg: Config, env: Env, s: State, p: Proposal, c: Claim, signature: Bytes, n: nat)
    requires n > 0 && Issuing(cfg, env, Run(cfg, s, Calls(env, p, signature, n - 1)), p, c, signature)
    ensures var mid, s' := Run(cfg, s, Calls(env, p, signature, n - 1)), Run(cfg, s, Calls(env, p, signature, n));
            && Issuance(s'.ledger, c.asset) == Issuance(mid.ledger, c.asset) + c.amount
            && s'.used == mid.used && s'.flows == mid.flows && Issuing(cfg, env, s', p, c, signature)
  {
    OneMoreCall(cfg, env, s, p, signature, n);
    OneIssue(cfg, env, Run(cfg, s, Calls(env, p, signature, n - 1)), p, c, signature);
  }

  lemma {:induction false} StillIssuing(cfg: Config, env: Env, s: State, p: Proposal, c: Claim, signature: Bytes,
                                        n: nat)
    requires Issuing(cfg, env, s, p, c, signature)
    ensures Issuing(cfg, env, Run(cfg, s, Calls(env, p, signature, n)), p, c, signature)
    decreases n
  {
    if n > 0 {
      StillIssuing(cfg, env, s, p, c, signature, n - 1);
      IssuingCall(cfg, env, s, p, c, signature, n);
    }
  }

  lemma {:induction false} IssuesAddUp(cfg: Config, env: Env, s: State, p: Proposal, c: Claim, signature: Bytes, n: nat)
    requires Issuing(cfg, env, s, p, c, signature)
    ensures var s' := Run(cfg, s, Calls(env, p, signature, n));
            && Issuance(s'.ledger, c.asset) == Issuance(s.ledger, c.asset) + n * c.amount
            && s'.used == s.used && s'.flows == s.flows
    decreases n
  {
    if n > 0 {
      OneMoreTime(n, c.amount);
      IssuesAddUp(cfg, env, s, p, c, signature, n - 1);
      StillIssuing(cfg, env, s, p, c, signature, n - 1);
      IssuingCall(cfg, env, s, p, c, signature, n);
    }
  }

  /** So every call that presents such a proposal issues its amount again, and leaves it as it was. */
  lemma CallsIssue(cfg: Config, env: Env, s: State, p: Proposal, c: Claim, signature: Bytes, n: nat)
    requires Issuing(cfg, env, s, p, c, signature)
    ensures var s' := Run(cfg, s, Calls(env, p, signature, n));
            && Issuance(s'.ledger, c.asset) == Issuance(s.ledger, c.asset) + n * c.amount
            && s'.used == s.used && s'.flows == s.flows && Issuing(cfg, env, s', p, c, signature)
  {
    IssuesAddUp(cfg, env, s, p, c, signature, n);
    StillIssuing(cfg, env, s, p, c, signature, n);
  }

  /** The same bridge with the parachain's parser, no reserved asset, and every recipient in another domain. */
  const ELSEWHERE: MultiLocation := MultiLocation(0, [Key(SYGMA), Key(SYGMA_BRIDGE), GeneralIndex(9), Key(SYGMA)])

  function ForwardingConfig(): Config {
    SampleConfig().(isReserve := asset => false, extractDest := loc => ParachainExtractDest(loc),
                    decodeLocation := bytes => Some(ELSEWHERE))
  }

  /** Balance rules that let everything through. */
  function ForwardingEnv(): Env {
    SampleEnv().(canDeposit := (l, asset, to) => true)
  }

  lemma ForwardingAsks(amount: u128)
    ensures Forwarding.UsesShippedParser(ForwardingConfig()) && RouteOf(ELSEWHERE).OtherWorld?
    ensures Asked(ForwardingConfig(), SampleProposal(amount)) == Some(Claim(TOKEN, amount, ELSEWHERE, 1))
  {
    DepositData.ExtractCreate(ForwardingConfig().decodeLocation, amount, []);
    assert ForwardingConfig().resources[0].1 == RESOURCE;
  }

  /** Executing this proposal issues its amount to the transit account, forwards nothing and uses no nonce. */
  lemma FailureIssuesBalance(amount: u128)
    requires amount > 0
    ensures var cfg, env, s, p := ForwardingConfig(), ForwardingEnv(), SampleState(0), SampleProposal(amount);
            var s' := ExecuteOne(cfg, env, s, p);
            && !DepositAsset(cfg, env, s, TOKEN, amount, ELSEWHERE).ok
            && Issuance(s'.ledger, TOKEN) == Issuance(s.ledger, TOKEN) + amount
            && Balance(s'.ledger, TOKEN, cfg.bridgeTransit) == amount
            && s'.used == {} && s'.flows == [] && s'.counts == s.counts
  {
    var cfg, env, s, p := ForwardingConfig(), ForwardingEnv(), SampleState(0), SampleProposal(amount);
    var c := Claim(TOKEN, amount, ELSEWHERE, 1);
    ForwardingAsks(amount);
    ShippedParserIssues(cfg, env, s, p, c);
    ForwardedClaimsFail(cfg, env, s, c);
    DeliveredExactlyWhen(cfg, env, s, c);
  }
}
