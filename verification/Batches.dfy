/** What executing a list of proposals means: outcomes, used nonces, and balances account by account. */
module Batches {
  import opened Prelude
  import opened Xcm
  import opened Ledgers
  import opened Eip712
  import opened Bridge
  import opened Atoms
  import DepositData

  /** A batch is its prefix followed by its suffix. */
  lemma {:induction false} BatchesCompose(cfg: Config, env: Env, s: State, ps: seq<Proposal>, qs: seq<Proposal>)
    ensures ExecuteAll(cfg, env, s, ps + qs) == ExecuteAll(cfg, env, ExecuteAll(cfg, env, s, ps), qs)
    decreases |qs|
  {
    if qs == [] {
      assert ps + qs == ps;
    } else {
      var n := |qs| - 1;
      BatchesCompose(cfg, env, s, ps, qs[..n]);
      assert (ps + qs)[..|ps + qs| - 1] == ps + qs[..n];
    }
  }

  // ---- Outcomes

  datatype Outcome = Outcome(domain: DomainId, nonce: Nonce, ok: bool)

  function OutcomeOf(e: Event): seq<Outcome> {
    match e
    case ProposalExecution(d, n, _) => [Outcome(d, n, true)]
    case FailedHandlerExecution(_, d, n) => [Outcome(d, n, false)]
    case _ => []
  }

  function Outcomes(events: seq<Event>): seq<Outcome> {
    if events == [] then [] else Outcomes(events[..|events| - 1]) + OutcomeOf(events[|events| - 1])
  }

  lemma OutcomesOne(events: seq<Event>, e: Event)
    ensures Outcomes(events + [e]) == Outcomes(events) + OutcomeOf(e)
  {
    assert (events + [e])[..|events|] == events;
  }

  lemma OutcomesTwoQuiet(events: seq<Event>, e: Event, f: Event)
    requires OutcomeOf(e) == OutcomeOf(f) == []
    ensures Outcomes(events + [e, f]) == Outcomes(events)
  {
    OutcomesOne(events, e);
    OutcomesOne(events + [e], f);
    assert events + [e, f] == events + [e] + [f];
  }

  lemma AtomIsQuiet(cfg: Config, s: State, x: Atom)
    requires Legal1(cfg, s, x) && (MovesValue(x) || x.Lost?)
    ensures Outcomes(Apply(cfg, s, x).events) == Outcomes(s.events)
  {
    var s' := Apply(cfg, s, x);
    if x.Note? {
      OutcomesOne(s.events, x.event);
      assert OutcomeOf(x.event) == [];
    } else if x.Settled? {
      OutcomesTwoQuiet(s.events, s'.events[|s.events|], s'.events[|s.events| + 1]);
    }
  }

  lemma {:induction false} PlayIsQuiet(cfg: Config, s: State, xs: seq<Atom>)
    requires Legal(cfg, s, xs) && forall x :: x in xs ==> MovesValue(x) || x.Lost?
    ensures Outcomes(Play(cfg, s, xs).events) == Outcomes(s.events)
  {
    if xs != [] {
      PlayIsQuiet(cfg, s, xs[..|xs| - 1]);
      AtomIsQuiet(cfg, Play(cfg, s, xs[..|xs| - 1]), xs[|xs| - 1]);
    }
  }

  /** Paying out reports no outcome and uses no nonce, however deep the transfer nests. */
  lemma PayIsQuiet(cfg: Config, env: Env, s: State, c: Claim)
    ensures var s' := Pay(cfg, env, s, c).state; Outcomes(s'.events) == Outcomes(s.events) && s'.used == s.used
  {
    var xs := PayPlays(cfg, env, s, c);
    PlayIsQuiet(cfg, s, xs);
  }

  lemma VerdictIsReported(cfg: Config, s: State, p: Proposal, c: Claim, e: Error)
    ensures Outcomes(Failed(s, p, e).events) == Outcomes(s.events) + [Outcome(p.origin, p.nonce, false)]
    ensures Outcomes(Executed(cfg, s, p, c).events) == Outcomes(s.events) + [Outcome(p.origin, p.nonce, true)]
  {
    OutcomesOne(s.events, FailedHandlerExecution(e, p.origin, p.nonce));
    OutcomesOne(s.events, Executed(cfg, s, p, c).events[|s.events|]);
  }

  lemma PaymentOutcome(cfg: Config, env: Env, s: State, p: Proposal, c: Claim)
    ensures var paid := Pay(cfg, env, s, c);
            var ok := paid.error.None?;
            var s' := if ok then Executed(cfg, paid.state, p, c) else Failed(paid.state, p, paid.error.value);
            && Outcomes(s'.events) == Outcomes(s.events) + [Outcome(p.origin, p.nonce, ok)]
            && s'.used == s.used + if ok then {(p.origin, p.nonce)} else {}
  {
    PayIsQuiet(cfg, env, s, c);
    var paid := Pay(cfg, env, s, c);
    VerdictIsReported(cfg, paid.state, p, c, if paid.error.None? then TransactFailed else paid.error.value);
  }

  lemma OneOutcomePerProposal(cfg: Config, env: Env, s: State, p: Proposal) returns (ok: bool)
    ensures var s' := ExecuteOne(cfg, env, s, p);
            && Outcomes(s'.events) == Outcomes(s.events) + [Outcome(p.origin, p.nonce, ok)]
            && s'.used == s.used + (if ok then {(p.origin, p.nonce)} else {})
            && (ok ==> (p.origin, p.nonce) !in s.used)
  {
    var claim := ClaimOf(cfg, s, p);
    if claim.Failure? {
      ok := false;
      OutcomesOne(s.events, FailedHandlerExecution(claim.error, p.origin, p.nonce));
    } else {
      ok := Pay(cfg, env, s, claim.value).error.None?;
      PaymentOutcome(cfg, env, s, p, claim.value);
    }
  }

  function Reported(ps: seq<Proposal>, oks: seq<bool>): seq<Outcome>
    requires |ps| == |oks|
  {
    seq(|ps|, i requires 0 <= i < |ps| => Outcome(ps[i].origin, ps[i].nonce, oks[i]))
  }

  function Id(p: Proposal): (DomainId, Nonce) {
    (p.origin, p.nonce)
  }

  function Successes(ps: seq<Proposal>, oks: seq<bool>): set<(DomainId, Nonce)>
    requires |ps| == |oks|
  {
    set i | 0 <= i < |ps| && oks[i] :: Id(ps[i])
  }

  lemma OneMore(ps: seq<Proposal>, oks: seq<bool>, p: Proposal, ok: bool)
    requires |ps| == |oks|
    ensures Reported(ps + [p], oks + [ok]) == Reported(ps, oks) + [Outcome(p.origin, p.nonce, ok)]
    ensures Successes(ps + [p], oks + [ok]) == Successes(ps, oks) + if ok then {Id(p)} else {}
  {
    var qs, rs := ps + [p], oks + [ok];
    forall id | id in Successes(ps, oks) + (if ok then {Id(p)} else {})
      ensures id in Successes(qs, rs)
    {
      if id in Successes(ps, oks) {
        var i :| 0 <= i < |ps| && oks[i] && Id(ps[i]) == id;
        assert rs[i] && Id(qs[i]) == id;
      } else {
        assert rs[|ps|] && Id(qs[|ps|]) == id;
      }
    }
  }

  /**
   * How a batch may turn out: one outcome per proposal, in order; the nonces used afterwards are the ones used
   * before and those of the successes; and a success was neither used before nor succeeded earlier in the batch.
   */
  ghost predicate TurnsOut(ps: seq<Proposal>, oks: seq<bool>, used: set<(DomainId, Nonce)>,
                           used': set<(DomainId, Nonce)>, log: seq<Outcome>, log': seq<Outcome>) {
    && |oks| == |ps|
    && log' == log + Reported(ps, oks)
    && used' == used + Successes(ps, oks)
    && (forall i :: 0 <= i < |ps| && oks[i] ==> Id(ps[i]) !in used)
    && (forall i, j :: 0 <= i < j < |ps| && oks[i] && oks[j] ==> Id(ps[i]) != Id(ps[j]))
  }

  lemma TurnsOutOneMore(ps: seq<Proposal>, oks: seq<bool>, p: Proposal, ok: bool,
                        used: set<(DomainId, Nonce)>, mid: set<(DomainId, Nonce)>,
                        log: seq<Outcome>, midLog: seq<Outcome>)
    requires TurnsOut(ps, oks, used, mid, log, midLog)
    requires ok ==> Id(p) !in mid
    ensures TurnsOut(ps + [p], oks + [ok], used, mid + (if ok then {Id(p)} else {}),
                     log, midLog + [Outcome(p.origin, p.nonce, ok)])
  {
    OneMore(ps, oks, p, ok);
    forall i | 0 <= i < |ps| && oks[i]
      ensures Id(ps[i]) in Successes(ps, oks)
    {}
  }

  /** The meaning of a batch, for every list and every state. */
  lemma {:induction false} BatchMeaning(cfg: Config, env: Env, s: State, ps: seq<Proposal>) returns (oks: seq<bool>)
    ensures var s' := ExecuteAll(cfg, env, s, ps);
            TurnsOut(ps, oks, s.used, s'.used, Outcomes(s.events), Outcomes(s'.events))
    decreases |ps|
  {
    oks := [];
    if ps != [] {
      var init, p := ps[..|ps| - 1], ps[|ps| - 1];
      assert ps == init + [p];
      var before := BatchMeaning(cfg, env, s, init);
      var mid := ExecuteAll(cfg, env, s, init);
      var ok := OneOutcomePerProposal(cfg, env, mid, p);
      TurnsOutOneMore(init, before, p, ok, s.used, mid.used, Outcomes(s.events), Outcomes(mid.events));
      oks := before + [ok];
    }
  }

  // ---- Balances

  /** What the flows took from `who` as the reserve of `a`. */
  function TakenFrom(cfg: Config, flows: seq<Flow>, a: AssetId, who: Account): nat {
    if flows == [] then 0
    else
      TakenFrom(cfg, flows[..|flows| - 1], a, who) +
      if Lookup(cfg.reserveAccounts, a) != Some(who) then 0
      else
        match flows[|flows| - 1]
        case Inbound(_, b, released, _) => if a == b && cfg.isReserve(Units(b, released)) then released else 0
        case Stranded(b, lost) => if a == b then lost else 0
        case Outbound(_, _, _, _) => 0
  }

  /** What the flows paid to `who` in `a`. */
  function PaidTo(cfg: Config, flows: seq<Flow>, a: AssetId, who: Account): nat {
    if flows == [] then 0
    else
      PaidTo(cfg, flows[..|flows| - 1], a, who) +
      match flows[|flows| - 1]
      case Inbound(_, b, released, to) => if a == b && AccountOf(cfg, to) == Some(who) then released else 0
      case _ => 0
  }

  predicate LocalRecipient(cfg: Config, p: Proposal) {
    var data := DepositData.Extract(cfg.decodeLocation, p.data);
    data.Some? ==> RouteOf(data.value.1).Local?
  }

  /** The account is square: what it holds and gave as a reserve is what it held and was paid. */
  ghost predicate Squares(cfg: Config, s: State, s': State, a: AssetId, who: Account) {
    Balance(s'.ledger, a, who) + TakenFrom(cfg, s'.flows, a, who) + PaidTo(cfg, s.flows, a, who)
    == Balance(s.ledger, a, who) + TakenFrom(cfg, s.flows, a, who) + PaidTo(cfg, s'.flows, a, who)
  }

  lemma FlowsOne(cfg: Config, flows: seq<Flow>, f: Flow, a: AssetId, who: Account)
    ensures TakenFrom(cfg, flows + [f], a, who) == TakenFrom(cfg, flows, a, who) + TakenFrom(cfg, [f], a, who)
    ensures PaidTo(cfg, flows + [f], a, who) == PaidTo(cfg, flows, a, who) + PaidTo(cfg, [f], a, who)
  {
    assert (flows + [f])[..|flows|] == flows;
    assert [f][..0] == [];
  }

  lemma DeliverLocally(cfg: Config, env: Env, s: State, c: Claim, a: AssetId, who: Account)
    requires RouteOf(c.to).Local?
    ensures var r := Deliver(cfg, env, s, c);
            if r.error.None? then
              && r.state.flows == s.flows
              && Balance(r.state.ledger, a, who)
                 == Balance(s.ledger, a, who) + Gain(a == c.asset && AccountOf(cfg, c.to) == Some(who), c.amount)
            else
              && r.state.ledger == s.ledger
              && r.state.flows
                 == s.flows + if cfg.isReserve(Units(c.asset, c.amount)) then [Stranded(c.asset, c.amount)] else []
  {}

  lemma WithdrawTakes(cfg: Config, env: Env, s: State, c: Claim, a: AssetId, who: Account)
    requires Withdraw(cfg, env, s, c).Some?
    ensures var s1 := Withdraw(cfg, env, s, c).value;
            && s1.flows == s.flows
            && Balance(s1.ledger, a, who)
               + Gain(a == c.asset && who == c.reserve && cfg.isReserve(Units(a, c.amount)), c.amount)
               == Balance(s.ledger, a, who)
  {}

  lemma PaymentSquares(cfg: Config, env: Env, s: State, p: Proposal, c: Claim, a: AssetId, who: Account)
    requires RouteOf(c.to).Local? && Lookup(cfg.reserveAccounts, c.asset) == Some(c.reserve)
    ensures var paid := Pay(cfg, env, s, c);
            Squares(cfg, s, if paid.error.None? then Executed(cfg, paid.state, p, c) else paid.state, a, who)
  {
    var s1 := Withdraw(cfg, env, s, c);
    if s1.Some? {
      WithdrawTakes(cfg, env, s, c, a, who);
      DeliverLocally(cfg, env, s1.value, c, a, who);
      FlowsOne(cfg, s.flows, Inbound(p, c.asset, c.amount, c.to), a, who);
      FlowsOne(cfg, s.flows, Stranded(c.asset, c.amount), a, who);
    }
  }

  lemma ProposalSquares(cfg: Config, env: Env, s: State, p: Proposal, a: AssetId, who: Account)
    requires LocalRecipient(cfg, p)
    ensures Squares(cfg, s, ExecuteOne(cfg, env, s, p), a, who)
  {
    if ClaimOf(cfg, s, p).Success? {
      PaymentSquares(cfg, env, s, p, ClaimOf(cfg, s, p).value, a, who);
    }
  }

  /**
   * Batch accounting, for every asset and every account: with local recipients, the reserve pays exactly what
   * the successful proposals credit plus what proposals took whose second leg then failed, and nobody else's
   * balance moves.
   */
  lemma {:induction false} BatchSquares(cfg: Config, env: Env, s: State, ps: seq<Proposal>, a: AssetId, who: Account)
    requires forall i :: 0 <= i < |ps| ==> LocalRecipient(cfg, ps[i])
    ensures Squares(cfg, s, ExecuteAll(cfg, env, s, ps), a, who)
    decreases |ps|
  {
    if ps != [] {
      var k := |ps| - 1;
      BatchSquares(cfg, env, s, ps[..k], a, who);
      ProposalSquares(cfg, env, ExecuteAll(cfg, env, s, ps[..k]), ps[k], a, who);
    }
  }

  /**
   * A deposit moves exactly its amount and nothing else: the fee to the treasury, the rest to the reserve when the
   * asset is reserved here.
   */
  lemma DepositMovesExactly(cfg: Config, env: Env, s: State, origin: Origin, asset: MultiAsset, dest: MultiLocation,
                            b: AssetId, who: Account)
    requires Deposit(cfg, env, s, origin, asset, dest).Success?
    ensures var s' := Deposit(cfg, env, s, origin, asset, dest).value;
            var t := TermsOf(cfg, env, s, origin, asset, dest).value;
            Balance(s'.ledger, b, who) + Gain(b == t.asset && who == t.sender, t.amount)
            == Balance(s.ledger, b, who) + Gain(b == t.asset && who == cfg.feeAccount, t.fee)
               + Gain(b == t.asset && who == t.reserve && cfg.isReserve(asset), t.amount - t.fee)
  {
    var t := TermsOf(cfg, env, s, origin, asset, dest).value;
    SplitBalance(s.ledger, t.asset, t.sender, t.amount, cfg.feeAccount, t.fee, t.reserve, t.amount - t.fee, b, who);
  }

  /** The issuance of a reserved asset is kept; of any other the bridged part goes out of existence. */
  lemma DepositIssuance(cfg: Config, env: Env, s: State, origin: Origin, asset: MultiAsset, dest: MultiLocation,
                        b: AssetId)
    requires Deposit(cfg, env, s, origin, asset, dest).Success?
    ensures var s' := Deposit(cfg, env, s, origin, asset, dest).value;
            var t := TermsOf(cfg, env, s, origin, asset, dest).value;
            Issuance(s'.ledger, b) + Gain(b == t.asset && !cfg.isReserve(asset), t.amount - t.fee)
            == Issuance(s.ledger, b)
  {
    var t := TermsOf(cfg, env, s, origin, asset, dest).value;
    SplitIssuance(s.ledger, t.asset, t.sender, t.amount, cfg.feeAccount, t.fee, t.reserve, t.amount - t.fee, b);
  }
}
