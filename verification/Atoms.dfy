/**
 * Every run of the bridge breaks down into atoms: single changes of storage, each legal in the state it
 * is applied to.  An invariant of atoms is an invariant of all runs, nested transfers included.
 */
module Atoms {
  import opened Prelude
  import opened Xcm
  import opened Ledgers
  import opened Eip712
  import opened Bridge
  import DepositData

  datatype Atom =
    | Balances(ledger: Ledger)
    | Note(event: Event)
    | Settled(terms: Terms)
    | Completed(proposal: Proposal, claim: Claim)
    | Lost(asset: AssetId, amount: u128)
    | PauseSet(domain: DomainId, flag: bool)
    | AllPauseSet(flag: bool)
    | MpcSet(address: MpcAddress)
    | Registered(domain: DomainId, chain: ChainId, sender: Account)
    | Unregistered(domain: DomainId, chain: ChainId, sender: Account)

  ghost predicate Legal1(cfg: Config, s: State, x: Atom) {
    match x
    case Note(e) =>
      && !e.DepositMade? && !e.ProposalExecution? && !e.DomainRegistered? && !e.DomainUnregistered?
      && (e.RetryRequested? ==>
            !IsClear(s.mpc) && !Flag(s.paused, e.retryDomain) && Flag(s.domains, e.retryDomain))
    case Settled(t) =>
      && !IsClear(s.mpc) && !Flag(s.paused, t.domain) && Flag(s.domains, t.domain)
      && Count(s.counts, t.domain) + 1 < TWO_64 && t.fee < t.amount
      && FirstMatch<AssetId, ResourceId>(cfg.resources, t.asset) == Some(t.resource)
      && cfg.convertTo(t.asset, t.amount - t.fee) == Some(t.announced)
    case Completed(p, c) =>
      && !IsClear(s.mpc) && !Flag(s.paused, p.origin) && Flag(s.domains, p.origin)
      && (p.origin, p.nonce) !in s.used
      && DepositData.AmountWord(p.data) < TWO_128
      && cfg.convertFrom(c.asset, DepositData.AmountWord(p.data)) == Some(c.amount)
    case MpcSet(_) => IsClear(s.mpc)
    case Unregistered(d, _, _) => Flag(s.domains, d)
    case _ => true
  }

  ghost function Apply(cfg: Config, s: State, x: Atom): State
    requires Legal1(cfg, s, x)
  {
    match x
    case Balances(l) => s.(ledger := l)
    case Note(e) => s.(events := s.events + [e])
    case Settled(t) => Settle(s, t)
    case Completed(p, c) => Executed(cfg, s, p, c)
    case Lost(a, amount) => s.(flows := s.flows + [Stranded(a, amount)])
    case PauseSet(d, flag) => s.(paused := s.paused[d := flag])
    case AllPauseSet(flag) => s.(paused := SetAll(s, flag))
    case MpcSet(address) => s.(mpc := address)
    case Registered(d, chain, sender) =>
      s.(domains := s.domains[d := true], chains := s.chains[d := chain],
         events := s.events + [DomainRegistered(sender, d, chain)])
    case Unregistered(d, chain, sender) =>
      s.(domains := s.domains - {d}, chains := s.chains - {d},
         events := s.events + [DomainUnregistered(sender, d, chain)])
  }

  ghost predicate Legal(cfg: Config, s: State, xs: seq<Atom>)
    decreases |xs|, 0
  {
    xs == [] || (Legal(cfg, s, xs[..|xs| - 1]) && Legal1(cfg, Play(cfg, s, xs[..|xs| - 1]), xs[|xs| - 1]))
  }

  ghost function Play(cfg: Config, s: State, xs: seq<Atom>): State
    requires Legal(cfg, s, xs)
    decreases |xs|, 1
  {
    if xs == [] then s else Apply(cfg, Play(cfg, s, xs[..|xs| - 1]), xs[|xs| - 1])
  }

  lemma PlayOne(cfg: Config, s: State, xs: seq<Atom>, x: Atom)
    requires Legal(cfg, s, xs) && Legal1(cfg, Play(cfg, s, xs), x)
    ensures Legal(cfg, s, xs + [x])
    ensures Play(cfg, s, xs + [x]) == Apply(cfg, Play(cfg, s, xs), x)
  {
    assert (xs + [x])[..|xs|] == xs;
  }

  lemma {:induction false} PlayConcat(cfg: Config, s: State, xs: seq<Atom>, ys: seq<Atom>)
    requires Legal(cfg, s, xs) && Legal(cfg, Play(cfg, s, xs), ys)
    ensures Legal(cfg, s, xs + ys)
    ensures Play(cfg, s, xs + ys) == Play(cfg, Play(cfg, s, xs), ys)
  {
    if ys == [] {
      assert xs + ys == xs;
    } else {
      var init, last := ys[..|ys| - 1], ys[|ys| - 1];
      PlayConcat(cfg, s, xs, init);
      PlayOne(cfg, s, xs + init, last);
      assert xs + ys == xs + init + [last];
    }
  }

  /** Atoms that only move value: they leave pause flags, domains, used nonces and the MPC address alone. */
  predicate MovesValue(x: Atom) {
    x.Balances? || x.Settled?
    || (x.Note? && (x.event.XcmTransferSend? || x.event.XcmForwarded? || x.event.OtherWorldForwarded?))
  }

  predicate SameRules(s: State, s': State) {
    s'.paused == s.paused && s'.domains == s.domains && s'.chains == s.chains && s'.used == s.used && s'.mpc == s.mpc
  }

  lemma SettledIsLegal(cfg: Config, env: Env, s: State, origin: Origin, asset: MultiAsset, dest: MultiLocation)
    requires TermsOf(cfg, env, s, origin, asset, dest).Success?
    ensures Legal1(cfg, s, Settled(TermsOf(cfg, env, s, origin, asset, dest).value))
    ensures Deposit(cfg, env, s, origin, asset, dest)
            == Success(Apply(cfg, s, Settled(TermsOf(cfg, env, s, origin, asset, dest).value)))
  {}

  lemma RemoteDepositPlays(cfg: Config, env: Env, s: State, a: AssetId, amount: u128, who: MultiLocation)
    returns (xs: seq<Atom>)
    ensures Legal(cfg, s, xs) && Play(cfg, s, xs) == ForwardToXcm(cfg, env, s, a, amount, who).state
    ensures forall x :: x in xs ==> MovesValue(x)
    ensures SameRules(s, Play(cfg, s, xs))
  {
    var r := ForwardToXcm(cfg, env, s, a, amount, who);
    PlayOne(cfg, s, [], Balances(r.state.ledger));
    xs := [Balances(r.state.ledger)];
    if r.ok {
      var via := AccountLocation(cfg.xcmTransit);
      var e1, e2 := XcmTransferSend(Units(a, amount), via, who), XcmForwarded(Units(a, amount), via, who);
      PlayOne(cfg, s, xs, Note(e1));
      PlayOne(cfg, s, xs + [Note(e1)], Note(e2));
      xs := xs + [Note(e1)] + [Note(e2)];
      assert s.events + [e1, e2] == s.events + [e1] + [e2];
    }
  }

  /** New balances, then a deposit, then a report. */
  lemma NestedPlays(cfg: Config, s: State, l: Ledger, t: Terms, e: Event) returns (xs: seq<Atom>)
    requires Legal1(cfg, s.(ledger := l), Settled(t)) && e.OtherWorldForwarded?
    ensures Legal(cfg, s, xs) && forall x :: x in xs ==> MovesValue(x)
    ensures var s1 := Settle(s.(ledger := l), t); Play(cfg, s, xs) == s1.(events := s1.events + [e])
  {
    PlayOne(cfg, s, [], Balances(l));
    xs := [] + [Balances(l)];
    PlayOne(cfg, s, xs, Settled(t));
    xs := xs + [Settled(t)];
    PlayOne(cfg, s, xs, Note(e));
    xs := xs + [Note(e)];
  }

  lemma ForwardedDepositPlays(cfg: Config, env: Env, s: State, a: AssetId, amount: u128, who: MultiLocation)
    returns (xs: seq<Atom>)
    ensures Legal(cfg, s, xs) && Play(cfg, s, xs) == ForwardToBridge(cfg, env, s, a, amount, who).state
    ensures forall x :: x in xs ==> MovesValue(x)
    ensures SameRules(s, Play(cfg, s, xs))
  {
    var via := AccountLocation(cfg.bridgeTransit);
    var s1 := DepositLocally(cfg, env, s, a, amount, via).state;
    if ForwardToBridge(cfg, env, s, a, amount, who).ok {
      SettledIsLegal(cfg, env, s1, Signed(cfg.bridgeTransit), Units(a, amount), who);
      var t := TermsOf(cfg, env, s1, Signed(cfg.bridgeTransit), Units(a, amount), who).value;
      xs := NestedPlays(cfg, s, s1.ledger, t, OtherWorldForwarded(Units(a, amount), via, who));
    } else {
      PlayOne(cfg, s, [], Balances(s1.ledger));
      xs := [Balances(s1.ledger)];
    }
  }

  /** Routing an asset anywhere, forwarding included. */
  lemma DepositAssetPlays(cfg: Config, env: Env, s: State, a: AssetId, amount: u128, who: MultiLocation)
    returns (xs: seq<Atom>)
    ensures Legal(cfg, s, xs) && Play(cfg, s, xs) == DepositAsset(cfg, env, s, a, amount, who).state
    ensures forall x :: x in xs ==> MovesValue(x)
    ensures SameRules(s, Play(cfg, s, xs))
  {
    match RouteOf(who)
    case Local =>
      var l := DepositLocally(cfg, env, s, a, amount, who).state.ledger;
      PlayOne(cfg, s, [], Balances(l));
      xs := [Balances(l)];
    case RemoteChain =>
      xs := RemoteDepositPlays(cfg, env, s, a, amount, who);
    case OtherWorld =>
      xs := ForwardedDepositPlays(cfg, env, s, a, amount, who);
  }

  lemma DeliverPlays(cfg: Config, env: Env, s: State, c: Claim) returns (xs: seq<Atom>)
    ensures Legal(cfg, s, xs) && Play(cfg, s, xs) == Deliver(cfg, env, s, c).state
    ensures forall x :: x in xs ==> MovesValue(x) || x.Lost?
    ensures SameRules(s, Play(cfg, s, xs))
  {
    xs := DepositAssetPlays(cfg, env, s, c.asset, c.amount, c.to);
    if !DepositAsset(cfg, env, s, c.asset, c.amount, c.to).ok && cfg.isReserve(Units(c.asset, c.amount)) {
      PlayOne(cfg, s, xs, Lost(c.asset, c.amount));
      xs := xs + [Lost(c.asset, c.amount)];
    }
  }

  lemma PayPlays(cfg: Config, env: Env, s: State, c: Claim) returns (xs: seq<Atom>)
    ensures Legal(cfg, s, xs) && Play(cfg, s, xs) == Pay(cfg, env, s, c).state
    ensures forall x :: x in xs ==> MovesValue(x) || x.Lost?
    ensures SameRules(s, Play(cfg, s, xs))
  {
    xs := [];
    var s1 := Withdraw(cfg, env, s, c);
    if s1.Some? {
      PlayOne(cfg, s, [], Balances(s1.value.ledger));
      var ys := DeliverPlays(cfg, env, s1.value, c);
      PlayConcat(cfg, s, [Balances(s1.value.ledger)], ys);
      xs := [Balances(s1.value.ledger)] + ys;
    }
  }

  /** The rules a proposal is judged by are not its to change; of them it can only use its nonce. */
  predicate SameSetup(s: State, s': State) {
    s'.paused == s.paused && s'.domains == s.domains && s'.chains == s.chains && s'.mpc == s.mpc
  }

  lemma ProposalKeepsRules(cfg: Config, env: Env, s: State, p: Proposal)
    ensures SameSetup(s, ExecuteOne(cfg, env, s, p))
  {
    var claim := ClaimOf(cfg, s, p);
    if claim.Success? {
      var xs := PayPlays(cfg, env, s, claim.value);
    }
  }

  lemma {:induction false} BatchKeepsRules(cfg: Config, env: Env, s: State, ps: seq<Proposal>)
    ensures SameSetup(s, ExecuteAll(cfg, env, s, ps))
    decreases |ps|
  {
    if ps != [] {
      BatchKeepsRules(cfg, env, s, ps[..|ps| - 1]);
      ProposalKeepsRules(cfg, env, ExecuteAll(cfg, env, s, ps[..|ps| - 1]), ps[|ps| - 1]);
    }
  }

  predicate BatchAtom(x: Atom) {
    MovesValue(x) || x.Lost? || x.Completed? || (x.Note? && x.event.FailedHandlerExecution?)
  }

  lemma ExecuteOnePlays(cfg: Config, env: Env, s: State, p: Proposal) returns (xs: seq<Atom>)
    requires !IsClear(s.mpc)
    ensures Legal(cfg, s, xs) && Play(cfg, s, xs) == ExecuteOne(cfg, env, s, p)
    ensures forall x :: x in xs ==> BatchAtom(x)
    ensures ExecuteOne(cfg, env, s, p).mpc == s.mpc
  {
    xs := [];
    match ClaimOf(cfg, s, p)
    case Failure(e) =>
      PlayOne(cfg, s, [], Note(FailedHandlerExecution(e, p.origin, p.nonce)));
      xs := [Note(FailedHandlerExecution(e, p.origin, p.nonce))];
    case Success(c) =>
      xs := PayPlays(cfg, env, s, c);
      var paid := Pay(cfg, env, s, c);
      var last := if paid.error.Some? then Note(FailedHandlerExecution(paid.error.value, p.origin, p.nonce))
                  else Completed(p, c);
      PlayOne(cfg, s, xs, last);
      xs := xs + [last];
  }

  lemma {:induction false} ExecuteAllPlays(cfg: Config, env: Env, s: State, ps: seq<Proposal>) returns (xs: seq<Atom>)
    requires !IsClear(s.mpc)
    ensures Legal(cfg, s, xs) && Play(cfg, s, xs) == ExecuteAll(cfg, env, s, ps)
    ensures forall x :: x in xs ==> BatchAtom(x)
    ensures ExecuteAll(cfg, env, s, ps).mpc == s.mpc
    decreases |ps|
  {
    xs := [];
    if ps != [] {
      xs := ExecuteAllPlays(cfg, env, s, ps[..|ps| - 1]);
      var ys := ExecuteOnePlays(cfg, env, Play(cfg, s, xs), ps[|ps| - 1]);
      PlayConcat(cfg, s, xs, ys);
      xs := xs + ys;
    }
  }

  /** Calls that may lift a pause of `d`. */
  predicate MayUnpause(call: Call, d: DomainId) {
    (call.UnpauseBridge? && call.domain == d) || call.UnpauseAll? || call.SetMpcAddress?
  }

  predicate Unpauses(x: Atom, d: DomainId) {
    (x.PauseSet? && !x.flag && x.domain == d) || (x.AllPauseSet? && !x.flag)
  }

  /** An administrative change together with the event that reports it. */
  lemma ChangeAndNote(cfg: Config, s: State, x: Atom, e: Event)
    requires Legal1(cfg, s, x) && (x.PauseSet? || x.AllPauseSet?)
    requires Legal1(cfg, Apply(cfg, s, x), Note(e))
    ensures Legal(cfg, s, [x, Note(e)])
    ensures Play(cfg, s, [x, Note(e)]) == Apply(cfg, s, x).(events := s.events + [e])
  {
    PlayOne(cfg, s, [], x);
    PlayOne(cfg, s, [x], Note(e));
    assert [x] + [Note(e)] == [x, Note(e)];
  }

  lemma PausePlays(cfg: Config, env: Env, s: State, call: Call) returns (xs: seq<Atom>)
    requires Dispatch(cfg, env, s, call).Success?
    requires call.PauseBridge? || call.UnpauseBridge? || call.PauseAll? || call.UnpauseAll?
    ensures Legal(cfg, s, xs) && Success(Play(cfg, s, xs)) == Dispatch(cfg, env, s, call)
    ensures forall x, d :: x in xs && Unpauses(x, d) ==> MayUnpause(call, d)
  {
    var (change, event) :=
      if call.PauseBridge? then (PauseSet(call.domain, true), DomainPaused(call.domain))
      else if call.UnpauseBridge? then (PauseSet(call.domain, false), DomainUnpaused(call.domain))
      else if call.PauseAll? then (AllPauseSet(true), AllPaused(SenderOf(call.origin)))
      else (AllPauseSet(false), AllUnpaused(SenderOf(call.origin)));
    ChangeAndNote(cfg, s, change, event);
    xs := [change, Note(event)];
  }

  lemma RegistryPlays(cfg: Config, env: Env, s: State, call: Call) returns (xs: seq<Atom>)
    requires Dispatch(cfg, env, s, call).Success?
    requires call.RegisterDomain? || call.UnregisterDomain?
    ensures Legal(cfg, s, xs) && Success(Play(cfg, s, xs)) == Dispatch(cfg, env, s, call)
    ensures forall x, d :: x in xs ==> !Unpauses(x, d)
  {
    var change := if call.RegisterDomain? then Registered(call.domain, call.chain, SenderOf(call.origin))
                  else Unregistered(call.domain, call.chain, SenderOf(call.origin));
    PlayOne(cfg, s, [], change);
    xs := [change];
  }

  lemma SetupPlays(cfg: Config, env: Env, s: State, call: Call) returns (xs: seq<Atom>)
    requires Dispatch(cfg, env, s, call).Success?
    requires call.SetMpcAddress? || call.Retry?
    ensures Legal(cfg, s, xs) && Success(Play(cfg, s, xs)) == Dispatch(cfg, env, s, call)
    ensures forall x, d :: x in xs && Unpauses(x, d) ==> call.SetMpcAddress?
  {
    if call.Retry? {
      var note := Note(RetryRequested(call.height, call.domain, SenderOf(call.origin)));
      PlayOne(cfg, s, [], note);
      xs := [note];
    } else {
      PlayOne(cfg, s, [], MpcSet(call.address));
      PlayOne(cfg, s, [MpcSet(call.address)], AllPauseSet(false));
      xs := [MpcSet(call.address)] + [AllPauseSet(false)];
    }
  }

  /** Every call of the pallet, successful or not, is a legal sequence of atoms. */
  lemma NextPlays(cfg: Config, s: State, step: Step) returns (xs: seq<Atom>)
    ensures Legal(cfg, s, xs) && Play(cfg, s, xs) == Next(cfg, s, step)
    ensures forall x, d :: x in xs && Unpauses(x, d) ==> MayUnpause(step.call, d)
    ensures Dispatch(cfg, step.env, s, step.call).Failure? ==> xs == []
  {
    xs := [];
    var r := Dispatch(cfg, step.env, s, step.call);
    if r.Success? {
      match step.call
      case MakeDeposit(origin, asset, dest) =>
        SettledIsLegal(cfg, step.env, s, origin, asset, dest);
        var t := TermsOf(cfg, step.env, s, origin, asset, dest).value;
        PlayOne(cfg, s, [], Settled(t));
        xs := [Settled(t)];
      case Execute(ps, _) =>
        xs := ExecuteAllPlays(cfg, step.env, s, ps);
      case Elsewhere(l) =>
        PlayOne(cfg, s, [], Balances(l));
        xs := [Balances(l)];
      case RegisterDomain(_, _, _) =>
        xs := RegistryPlays(cfg, step.env, s, step.call);
      case UnregisterDomain(_, _, _) =>
        xs := RegistryPlays(cfg, step.env, s, step.call);
      case SetMpcAddress(_, _) =>
        xs := SetupPlays(cfg, step.env, s, step.call);
      case Retry(_, _, _) =>
        xs := SetupPlays(cfg, step.env, s, step.call);
      case _ =>
        xs := PausePlays(cfg, step.env, s, step.call);
    }
  }

  /** And so is every run. */
  lemma {:induction false} RunPlays(cfg: Config, s: State, steps: seq<Step>) returns (xs: seq<Atom>)
    ensures Legal(cfg, s, xs) && Play(cfg, s, xs) == Run(cfg, s, steps)
    decreases |steps|
  {
    xs := [];
    if steps != [] {
      var last := |steps| - 1;
      xs := RunPlays(cfg, s, steps[..last]);
      var ys := NextPlays(cfg, Play(cfg, s, xs), steps[last]);
      PlayConcat(cfg, s, xs, ys);
      xs := xs + ys;
    }
  }
}
