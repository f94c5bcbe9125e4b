/** What a signature lets through. */
module Authorisation {
  import opened Prelude
  import opened Eip712
  import opened Bridge
  import opened Xcm
  import AccessSegregator

  /** The MPC key signed the messages of these batches and no others: what verifies is one of them. */
  ghost predicate SignedOnly(env: Env, h: Keccak, domain: Domain, mpc: MpcAddress, signed: set<seq<Proposal>>) {
    && [] !in signed
    && forall m, signature :: env.verifies(m, signature, mpc) ==>
         exists b :: b in signed && m == SigningMessage(h, domain, b)
  }

  /**
   * Whatever signature comes with it, a batch that gets executed is one that was signed, proposal by proposal - or two
   * byte strings on which the hash collides are at hand.
   */
  lemma ExecutedBatchWasSigned(cfg: Config, domain: Domain, env: Env, s: State, signed: set<seq<Proposal>>,
                               signature: Bytes, ps: seq<Proposal>) returns (x: Bytes, y: Bytes)
    requires cfg.message(ps) == SigningMessage(cfg.keccak, domain, ps)
    requires SignedOnly(env, cfg.keccak, domain, s.mpc, signed)
    requires ExecuteProposals(cfg, env, s, ps, signature).Success?
    ensures ps in signed || Collision(cfg.keccak, x, y)
  {
    var b :| b in signed && cfg.message(ps) == SigningMessage(cfg.keccak, domain, b);
    x, y := SigningMessageBinds(cfg.keccak, domain, ps, domain, b);
  }

  /** The extrinsic a restricted call names, and who calls it. */
  function Restricted(call: Call): Option<(string, Origin)> {
    match call
    case PauseBridge(origin, _) => Some(("pause_bridge", origin))
    case UnpauseBridge(origin, _) => Some(("unpause_bridge", origin))
    case SetMpcAddress(origin, _) => Some(("set_mpc_address", origin))
    case RegisterDomain(origin, _, _) => Some(("register_domain", origin))
    case UnregisterDomain(origin, _, _) => Some(("unregister_domain", origin))
    case Retry(origin, _, _) => Some(("retry", origin))
    case PauseAll(origin) => Some(("pause_all_bridges", origin))
    case UnpauseAll(origin) => Some(("unpause_all_bridges", origin))
    case _ => None
  }

  lemma RestrictedCallsNeedAccess(cfg: Config, env: Env, s: State, call: Call)
    requires Dispatch(cfg, env, s, call).Success? && Restricted(call).Some?
    ensures env.hasAccess(Restricted(call).value.0, Restricted(call).value.1)
  {}

  /** The bridge asks the access segregator, whose table came about by the grants in `log`. */
  ghost predicate AsksSegregator(env: Env, access: AccessSegregator.Config, palletIndex: u8,
                                 log: seq<AccessSegregator.Grant>) {
    forall name, origin ::
      env.hasAccess(name, origin)
      == AccessSegregator.HasAccess(access, AccessSegregator.Table(log), (palletIndex, name), origin)
  }

  /**
   * Whoever succeeds with a restricted call is the committee, or holds the latest grant for that registered extrinsic,
   * and that grant goes back to the committee through grants of `grant_access`.
   */
  lemma RestrictedCallsComeFromTheCommittee(cfg: Config, env: Env, s: State, call: Call,
                                            access: AccessSegregator.Config, palletIndex: u8,
                                            log: seq<AccessSegregator.Grant>) returns (path: seq<nat>)
    requires Dispatch(cfg, env, s, call).Success? && Restricted(call).Some?
    requires AsksSegregator(env, access, palletIndex, log) && AccessSegregator.IsRun(access, log)
    ensures var (name, origin) := Restricted(call).value;
            || access.isCommittee(origin)
            || (&& (palletIndex, name) in access.extrinsics
                && AccessSegregator.LeadsToCommittee(access, log, path)
                && AccessSegregator.IsLatest(log, (palletIndex, name), path[0])
                && origin == Signed(log[path[0]].to))
  {
    path := [];
    var (name, origin) := Restricted(call).value;
    RestrictedCallsNeedAccess(cfg, env, s, call);
    if !access.isCommittee(origin) {
      AccessSegregator.AccessIsTheLatestGrant(access, log, (palletIndex, name), origin);
      var i :| AccessSegregator.IsLatest(log, (palletIndex, name), i) && log[i].to == origin.who;
      path := AccessSegregator.GrantsComeFromTheCommittee(access, log, i);
    }
  }
}
