/** What every run of the bridge keeps, from an empty pallet and for any sequence of calls. */
module Safety {
  import opened Prelude
  import opened Xcm
  import opened Eip712
  import opened Bridge
  import opened Atoms
  import DepositData
  import Ledgers

  // ---- Outgoing nonces

  /** The nonces of the deposits to `d`, in the order of their events. */
  function DepositNonces(events: seq<Event>, d: DomainId): seq<Nonce> {
    if events == [] then []
    else
      var e := events[|events| - 1];
      DepositNonces(events[..|events| - 1], d) + if e.DepositMade? && e.destDomain == d then [e.nonce] else []
  }

  lemma DepositNoncesOne(events: seq<Event>, e: Event, d: DomainId)
    ensures DepositNonces(events + [e], d) ==
            DepositNonces(events, d) + if e.DepositMade? && e.destDomain == d then [e.nonce] else []
  {
    assert (events + [e])[..|events|] == events;
  }

  ghost predicate ContiguousFor(s: State, d: DomainId) {
    && |DepositNonces(s.events, d)| == Count(s.counts, d)
    && forall i :: 0 <= i < Count(s.counts, d) ==> DepositNonces(s.events, d)[i] == i
  }

  ghost predicate NoncesContiguous(s: State) {
    forall d: DomainId :: ContiguousFor(s, d)
  }

  lemma QuietEventKeepsNonces(s: State, s': State, e: Event)
    requires NoncesContiguous(s) && !e.DepositMade?
    requires s'.counts == s.counts && s'.events == s.events + [e]
    ensures NoncesContiguous(s')
  {
    forall d: DomainId
      ensures ContiguousFor(s', d)
    {
      assert ContiguousFor(s, d);
      DepositNoncesOne(s.events, e, d);
    }
  }

  lemma SettlingNonces(s: State, t: Terms, d: DomainId)
    requires Count(s.counts, t.domain) + 1 < TWO_64 && t.fee < t.amount
    ensures DepositNonces(Settle(s, t).events, d) ==
            DepositNonces(s.events, d) + if d == t.domain then [Count(s.counts, t.domain)] else []
  {
    var s' := Settle(s, t);
    var e1, e2 := s'.events[|s.events|], s'.events[|s.events| + 1];
    assert s'.events == s.events + [e1] + [e2];
    DepositNoncesOne(s.events, e1, d);
    DepositNoncesOne(s.events + [e1], e2, d);
  }

  lemma SettlingKeepsNonces(s: State, t: Terms)
    requires NoncesContiguous(s) && Count(s.counts, t.domain) + 1 < TWO_64 && t.fee < t.amount
    ensures NoncesContiguous(Settle(s, t))
  {
    forall d: DomainId
      ensures ContiguousFor(Settle(s, t), d)
    {
      assert ContiguousFor(s, d);
      SettlingNonces(s, t, d);
    }
  }

  lemma AtomKeepsNonces(cfg: Config, s: State, x: Atom)
    requires NoncesContiguous(s) && Legal1(cfg, s, x)
    ensures NoncesContiguous(Apply(cfg, s, x))
  {
    var s' := Apply(cfg, s, x);
    if x.Settled? {
      SettlingKeepsNonces(s, x.terms);
    } else if s'.events == s.events {
      assert forall d: DomainId :: ContiguousFor(s, d) ==> ContiguousFor(s', d);
    } else {
      QuietEventKeepsNonces(s, s', s'.events[|s.events|]);
    }
  }

  lemma {:induction false} PlayKeepsNonces(cfg: Config, s: State, xs: seq<Atom>)
    requires NoncesContiguous(s) && Legal(cfg, s, xs)
    ensures NoncesContiguous(Play(cfg, s, xs))
  {
    if xs != [] {
      PlayKeepsNonces(cfg, s, xs[..|xs| - 1]);
      AtomKeepsNonces(cfg, Play(cfg, s, xs[..|xs| - 1]), xs[|xs| - 1]);
    }
  }

  /** In every run the deposits to a domain carry the nonces 0, 1, 2, ... and the counter is their number. */
  lemma DepositNoncesAreContiguous(cfg: Config, balances: Ledgers.Ledger, steps: seq<Step>)
    ensures NoncesContiguous(Run(cfg, Genesis(balances), steps))
  {
    var xs := RunPlays(cfg, Genesis(balances), steps);
    PlayKeepsNonces(cfg, Genesis(balances), xs);
  }

  // ---- Exactly-once execution

  predicate IsExecutionOf(e: Event, d: DomainId, n: Nonce) {
    e.ProposalExecution? && e.originDomain == d && e.executedNonce == n
  }

  ghost predicate ExecutedOnce(s: State) {
    && (forall d: DomainId, n: Nonce ::
          (d, n) in s.used <==> exists i :: 0 <= i < |s.events| && IsExecutionOf(s.events[i], d, n))
    && (forall i, j, d, n :: 0 <= i < j < |s.events| && IsExecutionOf(s.events[i], d, n) ==>
                               !IsExecutionOf(s.events[j], d, n))
  }

  /** Appending events that report no execution changes nothing about executions. */
  lemma QuietEventsKeepExecutions(s: State, s': State)
    requires ExecutedOnce(s) && s'.used == s.used && s.events <= s'.events
    requires forall i :: |s.events| <= i < |s'.events| ==> !s'.events[i].ProposalExecution?
    ensures ExecutedOnce(s')
  {
    forall d: DomainId, n: Nonce
      ensures (d, n) in s'.used <==> exists i :: 0 <= i < |s'.events| && IsExecutionOf(s'.events[i], d, n)
    {
      if (d, n) in s.used {
        var i :| 0 <= i < |s.events| && IsExecutionOf(s.events[i], d, n);
        assert IsExecutionOf(s'.events[i], d, n);
      }
    }
    forall i, j, d, n | 0 <= i < j < |s'.events| && IsExecutionOf(s'.events[i], d, n)
      ensures !IsExecutionOf(s'.events[j], d, n)
    {
      assert IsExecutionOf(s.events[i], d, n);
      if j < |s.events| { assert s'.events[j] == s.events[j]; }
    }
  }

  lemma ExecutionIsRecordedOnce(cfg: Config, s: State, p: Proposal, c: Claim)
    requires ExecutedOnce(s) && (p.origin, p.nonce) !in s.used
    ensures ExecutedOnce(Executed(cfg, s, p, c))
  {
    var s' := Executed(cfg, s, p, c);
    var last := |s.events|;
    assert IsExecutionOf(s'.events[last], p.origin, p.nonce);
    forall d: DomainId, n: Nonce
      ensures (d, n) in s'.used <==> exists i :: 0 <= i < |s'.events| && IsExecutionOf(s'.events[i], d, n)
    {
      assert forall i :: 0 <= i < last ==> (IsExecutionOf(s'.events[i], d, n) <==> IsExecutionOf(s.events[i], d, n));
    }
    forall i, j, d, n | 0 <= i < j < |s'.events| && IsExecutionOf(s'.events[i], d, n)
      ensures !IsExecutionOf(s'.events[j], d, n)
    {
      assert IsExecutionOf(s.events[i], d, n);
      if j < last { assert s'.events[j] == s.events[j]; }
    }
  }

  lemma AtomKeepsExecutedOnce(cfg: Config, s: State, x: Atom)
    requires ExecutedOnce(s) && Legal1(cfg, s, x)
    ensures ExecutedOnce(Apply(cfg, s, x)) && s.used <= Apply(cfg, s, x).used
  {
    if x.Completed? {
      ExecutionIsRecordedOnce(cfg, s, x.proposal, x.claim);
    } else {
      QuietEventsKeepExecutions(s, Apply(cfg, s, x));
    }
  }

  lemma {:induction false} PlayKeepsExecutedOnce(cfg: Config, s: State, xs: seq<Atom>)
    requires ExecutedOnce(s) && Legal(cfg, s, xs)
    ensures ExecutedOnce(Play(cfg, s, xs)) && s.used <= Play(cfg, s, xs).used
  {
    if xs != [] {
      PlayKeepsExecutedOnce(cfg, s, xs[..|xs| - 1]);
      AtomKeepsExecutedOnce(cfg, Play(cfg, s, xs[..|xs| - 1]), xs[|xs| - 1]);
    }
  }

  /**
   * In every run a (domain, nonce) pair is reported as executed at most once, the used pairs are exactly
   * the reported ones, and later calls never forget one.
   */
  lemma ProposalsExecuteAtMostOnce(cfg: Config, balances: Ledgers.Ledger, before: seq<Step>, after: seq<Step>)
    ensures var mid := Run(cfg, Genesis(balances), before);
            && ExecutedOnce(mid) && ExecutedOnce(Run(cfg, mid, after))
            && mid.used <= Run(cfg, mid, after).used
  {
    var xs := RunPlays(cfg, Genesis(balances), before);
    PlayKeepsExecutedOnce(cfg, Genesis(balances), xs);
    var mid := Run(cfg, Genesis(balances), before);
    var ys := RunPlays(cfg, mid, after);
    PlayKeepsExecutedOnce(cfg, mid, ys);
  }

  // ---- Registry and MPC address

  /** The registry that the public events describe. */
  function Replay(events: seq<Event>): map<DomainId, ChainId> {
    if events == [] then map[]
    else
      var before := Replay(events[..|events| - 1]);
      match events[|events| - 1]
      case DomainRegistered(_, d, chain) => before[d := chain]
      case DomainUnregistered(_, d, _) => before - {d}
      case _ => before
  }

  lemma ReplayQuiet(events: seq<Event>, e: Event)
    requires !e.DomainRegistered? && !e.DomainUnregistered?
    ensures Replay(events + [e]) == Replay(events)
  {
    assert (events + [e])[..|events|] == events;
  }

  lemma AtomKeepsReplay(cfg: Config, s: State, x: Atom)
    requires s.chains == Replay(s.events) && Legal1(cfg, s, x)
    ensures Apply(cfg, s, x).chains == Replay(Apply(cfg, s, x).events)
  {
    var s' := Apply(cfg, s, x);
    var n := |s.events|;
    if x.Settled? {
      ReplayQuiet(s.events, s'.events[n]);
      ReplayQuiet(s.events + [s'.events[n]], s'.events[n + 1]);
      assert s'.events == s.events + [s'.events[n]] + [s'.events[n + 1]];
    } else if |s'.events| > n {
      assert s'.events[..n] == s.events;
    }
  }

  /** The domain an event acts for, when it is one that needs a live bridge. */
  function ActsFor(e: Event): Option<DomainId> {
    match e
    case DepositMade(d, _, _, _, _) => Some(d)
    case ProposalExecution(d, _, _) => Some(d)
    case RetryRequested(_, d, _) => Some(d)
    case _ => None
  }

  /** Domains and chain ids belong together, and no entry says that its domain is not supported. */
  ghost predicate Registry(s: State) {
    && s.domains.Keys == s.chains.Keys
    && forall d :: d in s.domains ==> s.domains[d]
  }

  ghost predicate SilentBeforeSetup(s: State) {
    IsClear(s.mpc) ==> forall i :: 0 <= i < |s.events| ==> ActsFor(s.events[i]).None?
  }

  ghost predicate Consistent(s: State) {
    Registry(s) && s.chains == Replay(s.events) && SilentBeforeSetup(s)
  }

  lemma AtomKeepsRegistry(cfg: Config, s: State, x: Atom)
    requires Registry(s) && Legal1(cfg, s, x)
    ensures Registry(Apply(cfg, s, x))
  {}

  lemma AtomKeepsSilence(cfg: Config, s: State, x: Atom)
    requires SilentBeforeSetup(s) && Legal1(cfg, s, x)
    ensures SilentBeforeSetup(Apply(cfg, s, x))
    ensures !IsClear(s.mpc) ==> Apply(cfg, s, x).mpc == s.mpc
  {
    var s' := Apply(cfg, s, x);
    if IsClear(s'.mpc) {
      assert IsClear(s.mpc) && !x.Settled? && !x.Completed?;
      forall i | 0 <= i < |s'.events|
        ensures ActsFor(s'.events[i]).None?
      {
        if i < |s.events| { assert s'.events[i] == s.events[i]; }
      }
    }
  }

  lemma AtomKeepsConsistent(cfg: Config, s: State, x: Atom)
    requires Consistent(s) && Legal1(cfg, s, x)
    ensures Consistent(Apply(cfg, s, x))
    ensures !IsClear(s.mpc) ==> Apply(cfg, s, x).mpc == s.mpc
  {
    AtomKeepsRegistry(cfg, s, x);
    AtomKeepsReplay(cfg, s, x);
    AtomKeepsSilence(cfg, s, x);
  }

  lemma {:induction false} PlayKeepsConsistent(cfg: Config, s: State, xs: seq<Atom>)
    requires Consistent(s) && Legal(cfg, s, xs)
    ensures Consistent(Play(cfg, s, xs))
    ensures !IsClear(s.mpc) ==> Play(cfg, s, xs).mpc == s.mpc
  {
    if xs != [] {
      PlayKeepsConsistent(cfg, s, xs[..|xs| - 1]);
      AtomKeepsConsistent(cfg, Play(cfg, s, xs[..|xs| - 1]), xs[|xs| - 1]);
    }
  }

  /**
   * In every run the supported domains and the chain ids are what the registration events say, no transfer or retry
   * precedes the MPC address, and once that address is set nothing changes it.
   */
  lemma RegistryAndMpcAreStable(cfg: Config, balances: Ledgers.Ledger, before: seq<Step>, after: seq<Step>)
    ensures var mid := Run(cfg, Genesis(balances), before);
            && Consistent(mid) && Consistent(Run(cfg, mid, after))
            && (!IsClear(mid.mpc) ==> Run(cfg, mid, after).mpc == mid.mpc)
  {
    var xs := RunPlays(cfg, Genesis(balances), before);
    PlayKeepsConsistent(cfg, Genesis(balances), xs);
    var mid := Run(cfg, Genesis(balances), before);
    var ys := RunPlays(cfg, mid, after);
    PlayKeepsConsistent(cfg, mid, ys);
  }

  // ---- Pausing

  ghost predicate SilentFor(s: State, s': State, d: DomainId) {
    && s.events <= s'.events
    && forall i :: |s.events| <= i < |s'.events| ==> ActsFor(s'.events[i]) != Some(d)
  }

  lemma AtomRespectsPause(cfg: Config, s: State, x: Atom, d: DomainId)
    requires Legal1(cfg, s, x) && Flag(s.paused, d) && !Unpauses(x, d)
    ensures Flag(Apply(cfg, s, x).paused, d) && SilentFor(s, Apply(cfg, s, x), d)
  {
    if x.Note? {
      assert ActsFor(x.event) != Some(d);
    }
  }

  lemma {:induction false} PlayRespectsPause(cfg: Config, s: State, xs: seq<Atom>, d: DomainId)
    requires Legal(cfg, s, xs) && Flag(s.paused, d)
    requires forall x :: x in xs ==> !Unpauses(x, d)
    ensures Flag(Play(cfg, s, xs).paused, d) && SilentFor(s, Play(cfg, s, xs), d)
  {
    if xs != [] {
      var init, last := xs[..|xs| - 1], xs[|xs| - 1];
      PlayRespectsPause(cfg, s, init, d);
      AtomRespectsPause(cfg, Play(cfg, s, init), last, d);
    }
  }

  /** A call that pauses `d`: by name, or with all others while `d` is registered or was ever paused. */
  predicate Pauses(s: State, call: Call, d: DomainId) {
    (call.PauseBridge? && call.domain == d) || (call.PauseAll? && d in s.domains.Keys + s.paused.Keys)
  }

  /** Pausing pauses, and unpausing unpauses: all domains leave no domain paused. */
  lemma PausingTakesEffect(cfg: Config, env: Env, s: State, call: Call, d: DomainId)
    requires Dispatch(cfg, env, s, call).Success?
    ensures Pauses(s, call, d) ==> Flag(Dispatch(cfg, env, s, call).value.paused, d)
    ensures MayUnpause(call, d) ==> !Flag(Dispatch(cfg, env, s, call).value.paused, d)
  {}

  /** A call that succeeds and may lift the pause of `d`. */
  predicate Lifts(cfg: Config, s: State, step: Step, d: DomainId) {
    MayUnpause(step.call, d) && Dispatch(cfg, step.env, s, step.call).Success?
  }

  lemma {:induction false} RunRespectsPause(cfg: Config, paused: State, d: DomainId, steps: seq<Step>)
    requires Flag(paused.paused, d)
    requires forall i :: 0 <= i < |steps| ==> !Lifts(cfg, Run(cfg, paused, steps[..i]), steps[i], d)
    ensures Flag(Run(cfg, paused, steps).paused, d) && SilentFor(paused, Run(cfg, paused, steps), d)
    decreases |steps|
  {
    if steps != [] {
      var k := |steps| - 1;
      var init := steps[..k];
      forall i | 0 <= i < k
        ensures !Lifts(cfg, Run(cfg, paused, init[..i]), init[i], d)
      {
        assert init[..i] == steps[..i];
      }
      RunRespectsPause(cfg, paused, d, init);
      var mid := Run(cfg, paused, init);
      assert !Lifts(cfg, mid, steps[k], d);
      NextRespectsPause(cfg, mid, steps[k], d);
    }
  }

  lemma NextRespectsPause(cfg: Config, s: State, step: Step, d: DomainId)
    requires Flag(s.paused, d) && !Lifts(cfg, s, step, d)
    ensures Flag(Next(cfg, s, step).paused, d) && SilentFor(s, Next(cfg, s, step), d)
  {
    var xs := NextPlays(cfg, s, step);
    PlayRespectsPause(cfg, s, xs, d);
  }

  /**
   * After a successful pause of `d`, from any state, no deposit, retry or execution for `d` happens until a call that
   * lifts it succeeds - whatever is registered, unregistered or attempted in between.
   */
  lemma PauseHolds(cfg: Config, s: State, pause: Step, d: DomainId, steps: seq<Step>)
    requires Dispatch(cfg, pause.env, s, pause.call).Success? && Pauses(s, pause.call, d)
    requires forall i :: 0 <= i < |steps| ==> !Lifts(cfg, Run(cfg, Next(cfg, s, pause), steps[..i]), steps[i], d)
    ensures var paused := Next(cfg, s, pause);
            Flag(Run(cfg, paused, steps).paused, d) && SilentFor(paused, Run(cfg, paused, steps), d)
  {
    PausingTakesEffect(cfg, pause.env, s, pause.call, d);
    RunRespectsPause(cfg, Next(cfg, s, pause), d, steps);
  }

  // ---- History

  /** What an observer learns from one event, and what one flow says about it. */
  datatype Mark =
    | Announced(to: DomainId, resource: Option<ResourceId>, amount: nat)
    | Carried(from: DomainId, nonce: Nonce, dataHash: Bytes32)

  function EventMark(e: Event): seq<Mark> {
    match e
    case DepositMade(d, resource, _, _, data) => [Announced(d, Some(resource), DepositData.AmountWord(data))]
    case ProposalExecution(d, n, hash) => [Carried(d, n, hash)]
    case _ => []
  }

  function FlowMark(cfg: Config, f: Flow): seq<Mark> {
    match f
    case Outbound(d, a, _, announced) => [Announced(d, FirstMatch<AssetId, ResourceId>(cfg.resources, a), announced)]
    case Inbound(p, _, _, _) => [Carried(p.origin, p.nonce, cfg.keccak(p.data + cfg.palletTag))]
    case Stranded(_, _) => []
  }

  function EventMarks(events: seq<Event>): seq<Mark> {
    if events == [] then [] else EventMarks(events[..|events| - 1]) + EventMark(events[|events| - 1])
  }

  function FlowMarks(cfg: Config, flows: seq<Flow>): seq<Mark> {
    if flows == [] then [] else FlowMarks(cfg, flows[..|flows| - 1]) + FlowMark(cfg, flows[|flows| - 1])
  }

  lemma EventMarksOne(events: seq<Event>, e: Event)
    ensures EventMarks(events + [e]) == EventMarks(events) + EventMark(e)
  {
    assert (events + [e])[..|events|] == events;
  }

  lemma FlowMarksOne(cfg: Config, flows: seq<Flow>, f: Flow)
    ensures FlowMarks(cfg, flows + [f]) == FlowMarks(cfg, flows) + FlowMark(cfg, f)
  {
    assert (flows + [f])[..|flows|] == flows;
  }

  ghost predicate Mirrors(cfg: Config, s: State) {
    EventMarks(s.events) == FlowMarks(cfg, s.flows)
  }

  lemma QuietEventKeepsHistory(cfg: Config, s: State, s': State, e: Event)
    requires Mirrors(cfg, s) && EventMark(e) == []
    requires s'.events == s.events + [e] && s'.flows == s.flows
    ensures Mirrors(cfg, s')
  {
    EventMarksOne(s.events, e);
  }

  lemma SettlingMarks(cfg: Config, s: State, t: Terms)
    requires Count(s.counts, t.domain) + 1 < TWO_64 && t.fee < t.amount
    ensures EventMarks(Settle(s, t).events)
            == EventMarks(s.events) + [Announced(t.domain, Some(t.resource), t.announced)]
    ensures FlowMarks(cfg, Settle(s, t).flows)
            == FlowMarks(cfg, s.flows)
               + [Announced(t.domain, FirstMatch<AssetId, ResourceId>(cfg.resources, t.asset), t.announced)]
  {
    var s' := Settle(s, t);
    var e1, e2 := s'.events[|s.events|], s'.events[|s.events| + 1];
    assert s'.events == s.events + [e1] + [e2];
    EventMarksOne(s.events, e1);
    EventMarksOne(s.events + [e1], e2);
    DepositData.Layout(t.announced, t.recipient);
    FlowMarksOne(cfg, s.flows, s'.flows[|s.flows|]);
  }

  lemma ExecutingMarks(cfg: Config, s: State, p: Proposal, c: Claim)
    requires Mirrors(cfg, s)
    ensures Mirrors(cfg, Executed(cfg, s, p, c))
  {
    var s' := Executed(cfg, s, p, c);
    EventMarksOne(s.events, s'.events[|s.events|]);
    FlowMarksOne(cfg, s.flows, s'.flows[|s.flows|]);
  }

  lemma AtomKeepsHistory(cfg: Config, s: State, x: Atom)
    requires Mirrors(cfg, s) && Legal1(cfg, s, x)
    ensures Mirrors(cfg, Apply(cfg, s, x))
  {
    var s' := Apply(cfg, s, x);
    if x.Settled? {
      SettlingMarks(cfg, s, x.terms);
    } else if x.Completed? {
      ExecutingMarks(cfg, s, x.proposal, x.claim);
    } else if x.Lost? {
      FlowMarksOne(cfg, s.flows, Stranded(x.asset, x.amount));
    } else if x.Note? || x.Registered? || x.Unregistered? {
      QuietEventKeepsHistory(cfg, s, s', s'.events[|s.events|]);
    }
  }

  lemma {:induction false} PlayKeepsHistory(cfg: Config, s: State, xs: seq<Atom>)
    requires Mirrors(cfg, s) && Legal(cfg, s, xs)
    ensures Mirrors(cfg, Play(cfg, s, xs))
  {
    if xs != [] {
      PlayKeepsHistory(cfg, s, xs[..|xs| - 1]);
      AtomKeepsHistory(cfg, Play(cfg, s, xs[..|xs| - 1]), xs[|xs| - 1]);
    }
  }

  /**
   * The recorded flows are what the public events announce, in the same order: every deposit with its domain, the
   * resource of its asset and its 18-decimal amount, every execution with its domain, nonce and data hash.
   */
  lemma FlowsMirrorEvents(cfg: Config, balances: Ledgers.Ledger, steps: seq<Step>)
    ensures Mirrors(cfg, Run(cfg, Genesis(balances), steps))
  {
    var xs := RunPlays(cfg, Genesis(balances), steps);
    PlayKeepsHistory(cfg, Genesis(balances), xs);
  }
}
