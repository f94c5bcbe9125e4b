/** One bridge from its first call on: set up, deposited into and paid out of. */
module LiveRun {
  import opened Prelude
  import opened Xcm
  import opened Ledgers
  import opened Eip712
  import opened Bridge
  import opened SygmaRuntime
  import opened Acceptance
  import opened Batches
  import opened Atoms
  import opened Stranding
  import DepositData

  const DEST: MultiLocation := MultiLocation(0, [Key([9, 8]), Key([7])])

  /** A reserved asset held by account 1, fees to account 3, the standalone parser, and payments to account 2. */
  function Bridge1(): Config {
    Config(map[TOKEN := 1], 3, [(TOKEN, RESOURCE)], asset => true, (a, n) => Some(n), (a, n) => Some(n),
           ps => RESOURCE, bytes => RESOURCE, [], loc => StandaloneExtractDest(loc), bytes => Some(AccountLocation(2)),
           loc => None, 4, 5)
  }

  /** Everything permitted, for a fee of one unit. */
  function Rules(): Env {
    Env((name, origin) => true, (d, asset) => Some(1), (l, asset, from) => true, (l, asset, to) => true,
        (l, from, asset, dest) => Refused, (message, signature, address) => true)
  }

  const SETUP: Step := Step(Rules(), SetMpcAddress(Root, 5))
  const OPENING: Step := Step(Rules(), RegisterDomain(Root, 7, 70))

  function Paying(who: Account, amount: u128): Step {
    Step(Rules(), MakeDeposit(Signed(who), Units(TOKEN, amount), DEST))
  }

  function Returning(amount: u128): Proposal {
    Proposal(7, 0, RESOURCE, DepositData.Create(amount, []))
  }

  function Opened(balances: Ledger): State {
    State(map[], map[], 5, {}, map[7 := true], map[7 := 70], balances, [DomainRegistered(0, 7, 70)], [])
  }

  lemma BridgeOpens(balances: Ledger)
    ensures Next(Bridge1(), Next(Bridge1(), Genesis(balances), SETUP), OPENING) == Opened(balances)
  {
    var s1 := Next(Bridge1(), Genesis(balances), SETUP);
    assert s1.paused == map[];
  }

  lemma DestinationReads()
    ensures Bridge1().extractDest(DEST) == Some(([9, 8], 7))
  {
    StandaloneRoundTrip([9, 8], 7);
  }

  function Deposited(who: Account, amount: u128): State
    requires amount > 1
  {
    var l := Credit(Credit(Debit(map[(TOKEN, who) := amount], TOKEN, who, amount), TOKEN, 3, 1), TOKEN, 1, amount - 1);
    State(map[7 := 1], map[], 5, {}, map[7 := true], map[7 := 70], l,
          [DomainRegistered(0, 7, 70), DepositMade(7, RESOURCE, 0, who, DepositData.Create(amount - 1, [9, 8])),
           FeeCollected(who, 7, RESOURCE, 1, TOKEN)],
          [Outbound(7, TOKEN, amount - 1, amount - 1)])
  }

  lemma FundsMove(who: Account, amount: u128)
    requires amount > 1
    ensures MoveFunds(Bridge1(), Rules(), map[(TOKEN, who) := amount], who, Units(TOKEN, amount), amount, 1)
            == Success((Deposited(who, amount).ledger, 1))
  {}

  function DepositTerms(who: Account, amount: u128): Terms
    requires amount > 1
  {
    Terms(who, 7, [9, 8], RESOURCE, TOKEN, amount, 1, 1, Deposited(who, amount).ledger, amount - 1)
  }

  lemma TermsAreMade(who: Account, amount: u128)
    requires amount > 1
    ensures TermsOf(Bridge1(), Rules(), Opened(map[(TOKEN, who) := amount]), Signed(who), Units(TOKEN, amount), DEST)
            == Success(DepositTerms(who, amount))
  {
    var s := Opened(map[(TOKEN, who) := amount]);
    DestinationReads();
    var q := Quote(who, 7, [9, 8], RESOURCE, amount, 1);
    assert QuoteOf(Bridge1(), Rules(), s, Signed(who), Units(TOKEN, amount), DEST) == Success(q);
    FundsMove(who, amount);
  }

  lemma BridgeTakesADeposit(who: Account, amount: u128)
    requires amount > 1
    ensures Next(Bridge1(), Opened(map[(TOKEN, who) := amount]), Paying(who, amount)) == Deposited(who, amount)
  {
    TermsAreMade(who, amount);
    TermsAreSettled(who, amount);
  }

  lemma TermsAreSettled(who: Account, amount: u128)
    requires amount > 1
    ensures Settle(Opened(map[(TOKEN, who) := amount]), DepositTerms(who, amount)) == Deposited(who, amount)
  {
    var s, t := Opened(map[(TOKEN, who) := amount]), DepositTerms(who, amount);
    assert Settle(s, t).events == Deposited(who, amount).events;
    assert Settle(s, t).flows == Deposited(who, amount).flows;
  }

  lemma ReturnIsAsked(amount: u128)
    ensures LocalRecipient(Bridge1(), Returning(amount))
    ensures Asked(Bridge1(), Returning(amount)) == Some(Claim(TOKEN, amount, AccountLocation(2), 1))
  {
    DepositData.ExtractCreate(Bridge1().decodeLocation, amount, []);
    assert Bridge1().resources[0].1 == RESOURCE;
  }

  lemma BridgePays(amount: u128, back: u128)
    requires 1 < amount && back < amount
    ensures var s := Deposited(6, amount);
            var s' := ExecuteOne(Bridge1(), Rules(), s, Returning(back));
            && Outcomes(s'.events) == Outcomes(s.events) + [Outcome(7, 0, true)] && s'.used == {(7, 0)}
            && Balance(s'.ledger, TOKEN, 1) == amount - 1 - back && Balance(s'.ledger, TOKEN, 2) == back
            && Balance(s'.ledger, TOKEN, 3) == 1 && Balance(s'.ledger, TOKEN, 6) == 0
  {
    ReturnIsAsked(back);
    ReturnIsPayable(amount, back);
    var s := Deposited(6, amount);
    assert Due(s, Returning(back));
    PayableIsPaid(Bridge1(), Rules(), s, Returning(back), Claim(TOKEN, back, AccountLocation(2), 1));
  }

  lemma PayableIsPaid(cfg: Config, env: Env, s: State, p: Proposal, c: Claim)
    requires LocalRecipient(cfg, p) && Due(s, p) && Asked(cfg, p) == Some(c) && Payable(cfg, env, s.ledger, c)
    ensures var s' := ExecuteOne(cfg, env, s, p);
            && Outcomes(s'.events) == Outcomes(s.events) + [Outcome(p.origin, p.nonce, true)]
            && s'.used == s.used + {Id(p)} && s'.ledger == BalancesAfter(cfg, env, s.ledger, c)
  {
    LocalProposalIsPaidExactlyWhen(cfg, env, s, p);
  }

  lemma ReturnIsPayable(amount: u128, back: u128)
    requires 1 < amount && back < amount
    ensures var l, c := Deposited(6, amount).ledger, Claim(TOKEN, back, AccountLocation(2), 1);
            && Payable(Bridge1(), Rules(), l, c)
            && (var l' := BalancesAfter(Bridge1(), Rules(), l, c);
                && Balance(l', TOKEN, 1) == amount - 1 - back && Balance(l', TOKEN, 2) == back
                && Balance(l', TOKEN, 3) == 1 && Balance(l', TOKEN, 6) == 0)
  {
    DepositedBalances(amount);
  }

  lemma DepositedBalances(amount: u128)
    requires amount > 1
    ensures var l := Deposited(6, amount).ledger;
            && Balance(l, TOKEN, 1) == amount - 1 && Balance(l, TOKEN, 2) == 0
            && Balance(l, TOKEN, 3) == 1 && Balance(l, TOKEN, 6) == 0
  {}

  lemma NoOutcomeYet(amount: u128)
    requires amount > 1
    ensures Outcomes(Deposited(6, amount).events) == []
  {
    var es := Deposited(6, amount).events;
    assert es == [] + [es[0]] + [es[1]] + [es[2]];
    OutcomesOne([], es[0]);
    OutcomesOne([] + [es[0]], es[1]);
    OutcomesOne([] + [es[0]] + [es[1]], es[2]);
  }

  lemma FourSteps(cfg: Config, s: State, a: Step, b: Step, c: Step, d: Step)
    ensures Run(cfg, s, [a, b, c, d]) == Next(cfg, Next(cfg, Next(cfg, Next(cfg, s, a), b), c), d)
  {
    assert [a, b, c, d][..3] == [a, b, c] && [a, b, c][..2] == [a, b] && [a, b][..1] == [a] && [a][..0] == [];
    assert Run(cfg, s, []) == s;
    assert Run(cfg, s, [a]) == Next(cfg, s, a);
    assert Run(cfg, s, [a, b]) == Next(cfg, Next(cfg, s, a), b);
    assert Run(cfg, s, [a, b, c]) == Next(cfg, Next(cfg, Next(cfg, s, a), b), c);
  }

  /**
   * From an empty pallet: the MPC address is set, a domain registered, an amount deposited and any part of what was
   * bridged paid back.  The address is in place, the deposit announced with nonce 0, the proposal executed, and every
   * unit where it belongs.
   */
  lemma BridgeLives(amount: u128, back: u128, signature: Bytes)
    requires 1 < amount && back < amount
    ensures var steps := [SETUP, OPENING, Paying(6, amount), Step(Rules(), Execute([Returning(back)], signature))];
            var s := Run(Bridge1(), Genesis(map[(TOKEN, 6) := amount]), steps);
            && s.mpc == 5 && Outcomes(s.events) == [Outcome(7, 0, true)] && s.used == {(7, 0)}
            && Balance(s.ledger, TOKEN, 1) == amount - 1 - back && Balance(s.ledger, TOKEN, 2) == back
            && Balance(s.ledger, TOKEN, 3) == 1 && Balance(s.ledger, TOKEN, 6) == 0
  {
    FourSteps(Bridge1(), Genesis(map[(TOKEN, 6) := amount]), SETUP, OPENING, Paying(6, amount),
              Step(Rules(), Execute([Returning(back)], signature)));
    BridgeOpens(map[(TOKEN, 6) := amount]);
    BridgeTakesADeposit(6, amount);
    OneCall(Bridge1(), Rules(), Deposited(6, amount), Returning(back), signature);
    ProposalKeepsRules(Bridge1(), Rules(), Deposited(6, amount), Returning(back));
    BridgePays(amount, back);
    NoOutcomeYet(amount);
  }
}
