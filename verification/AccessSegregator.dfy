/** Who may call which extrinsic. */
module AccessSegregator {
  import opened Prelude
  import opened Xcm

  type Key = (u8, string)

  datatype Config = Config(palletIndex: u8, extrinsics: seq<Key>, isCommittee: Origin -> bool)

  /** A successful grant and who made it. */
  datatype Grant = Grant(granter: Origin, key: Key, to: Account)

  function GrantKey(cfg: Config): Key {
    (cfg.palletIndex, "grant_access")
  }

  predicate HasAccess(cfg: Config, access: map<Key, Account>, key: Key, origin: Origin) {
    || cfg.isCommittee(origin)
    || (origin.Signed? && key in cfg.extrinsics && key in access && access[key] == origin.who)
  }

  class Segregator {
    const cfg: Config
    var access: map<Key, Account>
    ghost var log: seq<Grant>

    /** The table is what the log of grants says. */
    ghost predicate Valid()
      reads this
    {
      IsRun(cfg, log) && access == Table(log)
    }

    constructor (cfg: Config)
      ensures Valid() && this.cfg == cfg && log == []
    {
      this.cfg := cfg;
      access, log := map[], [];
    }

    method GrantAccess(origin: Origin, key: Key, who: Account) returns (ok: bool)
      requires Valid()
      modifies this
      ensures Valid()
      ensures ok <==> HasAccess(cfg, old(access), GrantKey(cfg), origin)
      ensures if ok then access == old(access)[key := who] && log == old(log) + [Grant(origin, key, who)]
              else access == old(access) && log == old(log)
    {
      ok := HasAccess(cfg, access, (cfg.palletIndex, "grant_access"), origin);
      if ok {
        access := access[key := who];
        log := log + [Grant(origin, key, who)];
        assert log[..|log| - 1] == old(log);
      }
    }

    method Check(key: Key, origin: Origin) returns (ok: bool)
      ensures ok <==> HasAccess(cfg, access, key, origin)
    {
      if cfg.isCommittee(origin) { return true; }
      if !origin.Signed? { return false; }
      return key in cfg.extrinsics && key in access && access[key] == origin.who;
    }
  }

  // ---- Runs: every log the pallet can produce

  function Table(log: seq<Grant>): map<Key, Account> {
    if log == [] then map[] else Table(log[..|log| - 1])[log[|log| - 1].key := log[|log| - 1].to]
  }

  /** Each grant was made with access to `grant_access` at that time. */
  predicate IsRun(cfg: Config, log: seq<Grant>) {
    log == [] ||
    (IsRun(cfg, log[..|log| - 1]) && HasAccess(cfg, Table(log[..|log| - 1]), GrantKey(cfg), log[|log| - 1].granter))
  }

  /** The index of the last grant of `key`. */
  ghost predicate IsLatest(log: seq<Grant>, key: Key, i: int) {
    0 <= i < |log| && log[i].key == key && forall j :: i < j < |log| ==> log[j].key != key
  }

  lemma {:induction false} TableIsLatestGrant(log: seq<Grant>, key: Key)
    ensures key in Table(log) <==> exists i :: IsLatest(log, key, i)
    ensures forall i :: IsLatest(log, key, i) ==> key in Table(log) && Table(log)[key] == log[i].to
  {
    if log != [] {
      var n := |log| - 1;
      var init := log[..n];
      TableIsLatestGrant(init, key);
      if log[n].key == key {
        assert IsLatest(log, key, n);
        forall i | IsLatest(log, key, i)
          ensures i == n
        {}
      } else {
        assert forall i :: IsLatest(log, key, i) <==> IsLatest(init, key, i) by {
          forall i
            ensures IsLatest(log, key, i) <==> IsLatest(init, key, i)
          {
            if IsLatest(init, key, i) {
              assert forall j :: i < j < |log| ==> j == n || log[j] == init[j];
            }
            if IsLatest(log, key, i) {
              assert forall j :: i < j < n ==> init[j] == log[j];
            }
          }
        }
      }
    }
  }

  /**
   * The committee always has access.  Anybody else has it exactly by a signed call, for a registered extrinsic whose
   * latest grant names the caller.
   */
  lemma AccessIsTheLatestGrant(cfg: Config, log: seq<Grant>, key: Key, origin: Origin)
    ensures HasAccess(cfg, Table(log), key, origin) <==>
            || cfg.isCommittee(origin)
            || (origin.Signed? && key in cfg.extrinsics && exists i :: IsLatest(log, key, i) && log[i].to == origin.who)
  {
    TableIsLatestGrant(log, key);
  }

  /** A grant is made exactly by the committee or the holder of the latest grant of this pallet's `grant_access`. */
  lemma GrantsNeedAccess(cfg: Config, log: seq<Grant>, g: Grant)
    ensures IsRun(cfg, log + [g]) <==>
            && IsRun(cfg, log)
            && (|| cfg.isCommittee(g.granter)
                || (&& g.granter.Signed? && (cfg.palletIndex, "grant_access") in cfg.extrinsics
                    && exists i :: IsLatest(log, (cfg.palletIndex, "grant_access"), i) && log[i].to == g.granter.who))
  {
    assert (log + [g])[..|log|] == log;
    AccessIsTheLatestGrant(cfg, log, (cfg.palletIndex, "grant_access"), g.granter);
  }

  lemma {:induction false} RunPrefix(cfg: Config, log: seq<Grant>, n: nat)
    requires IsRun(cfg, log) && n <= |log|
    ensures IsRun(cfg, log[..n])
  {
    if n < |log| {
      RunPrefix(cfg, log[..|log| - 1], n);
      assert log[..|log| - 1][..n] == log[..n];
    } else {
      assert log[..n] == log;
    }
  }

  /** A chain of grants back to the committee: each granter was made one by the next entry of the path. */
  ghost predicate LeadsToCommittee(cfg: Config, log: seq<Grant>, path: seq<nat>) {
    && path != []
    && (forall k :: 0 <= k < |path| ==> path[k] < |log|)
    && (forall k :: 0 < k < |path| ==>
          && path[k] < path[k - 1]
          && IsLatest(log[..path[k - 1]], GrantKey(cfg), path[k])
          && log[path[k - 1]].granter == Signed(log[path[k]].to))
    && cfg.isCommittee(log[path[|path| - 1]].granter)
  }

  /** Every grant ever made goes back to the committee in finitely many grants of `grant_access`. */
  lemma {:induction false} GrantsComeFromTheCommittee(cfg: Config, log: seq<Grant>, i: nat) returns (path: seq<nat>)
    requires IsRun(cfg, log) && i < |log|
    ensures LeadsToCommittee(cfg, log, path) && path[0] == i
    decreases i
  {
    var granter := log[i].granter;
    if cfg.isCommittee(granter) {
      path := [i];
    } else {
      RunPrefix(cfg, log, i + 1);
      assert log[..i + 1][..i] == log[..i];
      assert HasAccess(cfg, Table(log[..i]), GrantKey(cfg), granter);
      AccessIsTheLatestGrant(cfg, log[..i], GrantKey(cfg), granter);
      var j :| IsLatest(log[..i], GrantKey(cfg), j) && log[..i][j].to == granter.who;
      var rest := GrantsComeFromTheCommittee(cfg, log, j);
      path := [i] + rest;
      PathExtends(cfg, log, i, rest);
    }
  }

  lemma PathExtends(cfg: Config, log: seq<Grant>, i: nat, rest: seq<nat>)
    requires LeadsToCommittee(cfg, log, rest) && i < |log| && rest[0] < i
    requires IsLatest(log[..i], GrantKey(cfg), rest[0]) && log[i].granter == Signed(log[rest[0]].to)
    ensures LeadsToCommittee(cfg, log, [i] + rest)
  {
    var path := [i] + rest;
    forall k | 0 < k < |path|
      ensures path[k] < path[k - 1] && IsLatest(log[..path[k - 1]], GrantKey(cfg), path[k])
      ensures log[path[k - 1]].granter == Signed(log[path[k]].to)
    {
      assert path[k] == rest[k - 1];
      if k > 1 { assert path[k - 1] == rest[k - 2]; }
    }
  }
}
