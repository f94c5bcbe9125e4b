/** Balances per asset and account.  Withdrawing burns and depositing mints. */
module Ledgers {
  import opened Prelude
  import opened Xcm

  type Ledger = map<(AssetId, Account), nat>

  function Balance(l: Ledger, a: AssetId, who: Account): nat {
    if (a, who) in l then l[(a, who)] else 0
  }

  function Credit(l: Ledger, a: AssetId, who: Account, amount: nat): Ledger {
    l[(a, who) := Balance(l, a, who) + amount]
  }

  function Debit(l: Ledger, a: AssetId, who: Account, amount: nat): Ledger
    requires amount <= Balance(l, a, who)
  {
    l[(a, who) := Balance(l, a, who) - amount]
  }

  /** Total issuance of an asset. */
  ghost function Issuance(l: Ledger, a: AssetId): nat
    decreases |l|
  {
    if l == map[] then 0
    else
      var k :| k in l;
      assert (l - {k}).Keys == l.Keys - {k};
      Share(l, a, k) + Issuance(l - {k}, a)
  }

  function Share(l: Ledger, a: AssetId, k: (AssetId, Account)): nat
    requires k in l
  {
    if k.0 == a then l[k] else 0
  }

  /** The sum does not depend on the order in which entries are taken. */
  lemma {:induction false} IssuanceWithout(l: Ledger, a: AssetId, k: (AssetId, Account))
    requires k in l
    ensures Issuance(l, a) == Share(l, a, k) + Issuance(l - {k}, a)
    decreases |l|
  {
    var j :| j in l && Issuance(l, a) == Share(l, a, j) + Issuance(l - {j}, a);
    if j != k {
      assert (l - {j}).Keys == l.Keys - {j};
      assert (l - {k}).Keys == l.Keys - {k};
      IssuanceWithout(l - {j}, a, k);
      IssuanceWithout(l - {k}, a, j);
      var rest := l - {j} - {k};
      assert rest == l - {k} - {j};
      assert Issuance(l - {j}, a) == Share(l, a, k) + Issuance(rest, a);
      assert Issuance(l - {k}, a) == Share(l, a, j) + Issuance(rest, a);
    }
  }

  lemma IssuanceUpdate(l: Ledger, a: AssetId, k: (AssetId, Account), v: nat)
    ensures Issuance(l[k := v], a) + (if k.0 == a then Balance(l, k.0, k.1) else 0)
            == Issuance(l, a) + (if k.0 == a then v else 0)
  {
    IssuanceWithout(l[k := v], a, k);
    if k in l {
      IssuanceWithout(l, a, k);
      assert l[k := v] - {k} == l - {k};
    } else {
      assert l[k := v] - {k} == l;
    }
  }

  /** Minting adds the amount to the issuance of that asset and to no other; burning takes it away. */
  lemma CreditIssues(l: Ledger, b: AssetId, who: Account, amount: nat, a: AssetId)
    ensures Issuance(Credit(l, b, who, amount), a) == Issuance(l, a) + if a == b then amount else 0
  {
    IssuanceUpdate(l, a, (b, who), Balance(l, b, who) + amount);
  }

  lemma DebitRetires(l: Ledger, b: AssetId, who: Account, amount: nat, a: AssetId)
    requires amount <= Balance(l, b, who)
    ensures Issuance(Debit(l, b, who, amount), a) + (if a == b then amount else 0) == Issuance(l, a)
  {
    IssuanceUpdate(l, a, (b, who), Balance(l, b, who) - amount);
  }

  function Gain(here: bool, amount: nat): nat {
    if here then amount else 0
  }

  /** Burning an amount and minting it back in two parts, or only the first of them. */
  lemma SplitBalance(l: Ledger, a: AssetId, from: Account, amount: nat, first: Account, part: nat, second: Account,
                     rest: nat, b: AssetId, who: Account)
    requires amount <= Balance(l, a, from)
    ensures var l1 := Credit(Debit(l, a, from, amount), a, first, part);
            && Balance(l1, b, who) + Gain(a == b && who == from, amount)
               == Balance(l, b, who) + Gain(a == b && who == first, part)
            && Balance(Credit(l1, a, second, rest), b, who) == Balance(l1, b, who) + Gain(a == b && who == second, rest)
  {}

  lemma SplitIssuance(l: Ledger, a: AssetId, from: Account, amount: nat, first: Account, part: nat, second: Account,
                      rest: nat, b: AssetId)
    requires amount <= Balance(l, a, from)
    ensures var l1 := Credit(Debit(l, a, from, amount), a, first, part);
            && Issuance(l1, b) + Gain(a == b, amount) == Issuance(l, b) + Gain(a == b, part)
            && Issuance(Credit(l1, a, second, rest), b) == Issuance(l1, b) + Gain(a == b, rest)
  {
    var l0 := Debit(l, a, from, amount);
    DebitRetires(l, a, from, amount, b);
    CreditIssues(l0, a, first, part, b);
    CreditIssues(Credit(l0, a, first, part), a, second, rest, b);
  }
}
