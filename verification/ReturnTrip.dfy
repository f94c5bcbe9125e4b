/** Sending value out and bringing it back. */
module ReturnTrip {
  import opened Prelude
  import opened Xcm
  import opened Eip712
  import opened Bridge
  import opened Decimals
  import opened FixedPoint
  import opened Solvency
  import opened Ledgers
  import opened Batches
  import opened Acceptance
  import DepositData

  /** What is left of `b` units of a `d`-decimal asset after going out and coming back. */
  function Returned(d: u8, b: nat): nat {
    WorthOf(d, AnnouncedFor(d, b))
  }

  lemma CoarseTrip(b: nat, s: nat)
    requires s > 0 && b < TWO_112
    ensures var r := WrappedQuotient(CappedProduct(b, s), s);
            r <= b && if b * s < TWO_112 then r == b else r == Quotient(TWO_112 - 1, s) < b
  {
    var a := CappedProduct(b, s);
    var r := WrappedQuotient(a, s);
    assert a % TWO_112 == a;
    if b * s < TWO_112 {
      QuotientUnique(a, s, b, 0);
    } else {
      if r >= b { MulMonotone(s, b, r); }
    }
  }

  lemma FineTrip(b: nat, s: nat)
    requires s > 0
    ensures var r := CappedProduct(WrappedQuotient(b, s), s);
            && r == b % TWO_112 - (b % TWO_112) % s
            && r <= b
            && (r == b <==> b < TWO_112 && b % s == 0)
            && (b < TWO_112 ==> b - r < s)
            && (s <= TWO_112 ==> (b - r < s <==> b < TWO_112))
  {
    var w := b % TWO_112;
    var q, m := w / s, w % s;
    assert w == s * q + m && s * q == q * s;
    assert CappedProduct(q, s) == w - m;
    if b < TWO_112 {
      assert w == b;
    } else {
      assert w <= b - TWO_112;
    }
  }

  /** Amounts of a `d`-decimal asset that survive the round trip whole. */
  predicate Lossless(d: u8, b: nat) {
    if d < 18 then b * Scale(18 - d) < TWO_112
    else if d > 18 then b < TWO_112 && b % Scale(d - 18) == 0
    else true
  }

  /** In powers of ten, for every number of decimals up to 51. */
  lemma LosslessInPowersOfTen(d: u8, b: nat)
    requires d <= 51
    ensures Lossless(d, b) <==>
            if d < 18 then b * Pow10(18 - d) < TWO_112
            else if d > 18 then b < TWO_112 && b % Pow10(d - 18) == 0
            else true
    ensures d > 18 ==> Scale(d - 18) == Pow10(d - 18)
  {
    if d < 18 { ScaleIsExactUpTo33(18 - d); }
    if d > 18 { ScaleIsExactUpTo33(d - 18); }
  }

  /**
   * `r` is what may come back of `b`: never more, and all of it exactly when the amount is lossless.  Otherwise, with
   * fewer than 18 decimals it is the most that 112 bits can carry; with more, it is short by less than one 18-decimal
   * unit exactly when the amount is below 2^112.
   */
  predicate FairReturn(d: u8, b: nat, r: nat) {
    && r <= b
    && (r == b <==> Lossless(d, b))
    && (d < 18 && !Lossless(d, b) ==> r == Quotient(TWO_112 - 1, Scale(18 - d)))
    && (d > 18 ==> (b - r < Scale(d - 18) <==> b < TWO_112))
  }

  /** Nothing is gained by a round trip, and what is lost is what `FairReturn` says. */
  lemma RoundTripLoss(d: u8, b: u128)
    requires d < 18 ==> b < TWO_112
    ensures FairReturn(d, b, Returned(d, b))
  {
    if d < 18 {
      CoarseTrip(b, Scale(18 - d));
    } else if d > 18 {
      FineTrip(b, Scale(d - 18));
    }
  }

  /** A deposit above 2^112 of a 19-decimal asset is announced, and all but ten of its units never come back. */
  lemma WrappedDepositIsLost()
    ensures Announceable(19, TWO_112 + 10) && AnnouncedFor(19, TWO_112 + 10) == 1 && Returned(19, TWO_112 + 10) == 10
  {
    TenIsAScale();
    assert (TWO_112 + 10) % TWO_112 == 10;
    assert WrappedQuotient(TWO_112 + 10, 10) == 1;
  }

  lemma TenIsAScale()
    ensures Scale(1) == 10
  {
    ScaleIsExactUpTo33(1);
    assert Pow10(1) == 10;
  }

  /** Half of 2^112 units of a 17-decimal asset is announced at the cap, and four fifths of it never come back. */
  lemma CappedDepositIsLost()
    ensures Announceable(17, TWO_112 / 2) && AnnouncedFor(17, TWO_112 / 2) == TWO_112 - 1
    ensures Returned(17, TWO_112 / 2) == (TWO_112 - 1) / 10 < TWO_112 / 2
  {
    TenIsAScale();
  }

  ghost predicate ResourcesDistinct(resources: seq<(AssetId, ResourceId)>) {
    forall i, j :: 0 <= i < j < |resources| ==> resources[i].1 != resources[j].1
  }

  /** Looking an asset's resource up and back gives the asset. */
  lemma ResourceRoundTrip(resources: seq<(AssetId, ResourceId)>, a: AssetId, r: ResourceId)
    requires ResourcesDistinct(resources) && FirstEntry<AssetId, ResourceId>(resources, a, r)
    ensures FirstMatch<AssetId, ResourceId>(resources, a) == Some(r) && AssetFor(resources, r) == Some(a)
  {
    FirstMatchFindsTheFirst<AssetId, ResourceId>(resources, a);
    AssetForFindsTheFirst(resources, r);
    var i :| 0 <= i < |resources| && resources[i] == (a, r);
    assert resources[i].1 == r;
    assert forall j :: 0 <= j < i ==> resources[j].1 != r;
  }

  /** The deposit event of a successful deposit. */
  function EventOf(s: State, t: Terms): Event {
    DepositMade(t.domain, t.resource, Count(s.counts, t.domain), t.sender, DepositData.Create(t.announced, t.recipient))
  }

  /** `p` carries the resource and the encoded amount of the event of the deposit on terms `t`. */
  predicate Answers(s: State, t: Terms, p: Proposal) {
    var e := EventOf(s, t);
    p.resource == e.resource && DepositData.AmountWord(p.data) == DepositData.AmountWord(e.data)
  }

  lemma ClaimReturnsTheDeposit(cfg: Config, pairs: seq<(AssetId, u8)>, env: Env, s: State, origin: Origin,
                               asset: MultiAsset, dest: MultiLocation, d: u8, later: State, p: Proposal)
    requires ConvertsWith(cfg, pairs) && ResourcesDistinct(cfg.resources)
    requires TermsOf(cfg, env, s, origin, asset, dest).Success?
    requires FirstEntry<AssetId, u8>(pairs, asset.id, d)
    requires Answers(s, TermsOf(cfg, env, s, origin, asset, dest).value, p)
    requires ClaimOf(cfg, later, p).Success?
    ensures var t := TermsOf(cfg, env, s, origin, asset, dest).value;
            var c := ClaimOf(cfg, later, p).value;
            c.asset == asset.id && FairReturn(d, t.amount - t.fee, c.amount)
  {
    var t := TermsOf(cfg, env, s, origin, asset, dest).value;
    var c := ClaimOf(cfg, later, p).value;
    FirstMatchFindsTheFirst<AssetId, ResourceId>(cfg.resources, asset.id);
    ResourceRoundTrip(cfg.resources, asset.id, t.resource);
    DepositData.Layout(t.announced, t.recipient);
    TripAmounts(pairs, asset.id, d, t.amount - t.fee, t.announced, c.amount);
  }

  /** `p` is executed: its nonce is used, and was not before. */
  predicate IsExecuted(cfg: Config, env: Env, s: State, p: Proposal) {
    Id(p) in ExecuteOne(cfg, env, s, p).used && Id(p) !in s.used
  }

  lemma ExecutedMeansPaid(cfg: Config, env: Env, s: State, p: Proposal)
    requires IsExecuted(cfg, env, s, p)
    ensures ClaimOf(cfg, s, p).Success?
    ensures var c := ClaimOf(cfg, s, p).value;
            var paid := Pay(cfg, env, s, c);
            paid.error.None? && ExecuteOne(cfg, env, s, p) == Executed(cfg, paid.state, p, c)
  {
    if ClaimOf(cfg, s, p).Success? {
      PayIsQuiet(cfg, env, s, ClaimOf(cfg, s, p).value);
    }
  }

  /**
   * The whole trip: a proposal that answers a deposit and is executed in any later state releases the very asset that
   * was deposited, never more of it, and all of it exactly when the amount survives the conversions whole.
   */
  lemma ProposalReturnsTheDeposit(cfg: Config, pairs: seq<(AssetId, u8)>, env: Env, s: State, origin: Origin,
                                  asset: MultiAsset, dest: MultiLocation, d: u8, env': Env, later: State, p: Proposal)
    requires ConvertsWith(cfg, pairs) && ResourcesDistinct(cfg.resources)
    requires TermsOf(cfg, env, s, origin, asset, dest).Success?
    requires FirstEntry<AssetId, u8>(pairs, asset.id, d)
    requires Answers(s, TermsOf(cfg, env, s, origin, asset, dest).value, p)
    requires IsExecuted(cfg, env', later, p)
    ensures var t := TermsOf(cfg, env, s, origin, asset, dest).value;
            var flows := ExecuteOne(cfg, env', later, p).flows;
            && flows != []
            && (var f := flows[|flows| - 1];
                f.Inbound? && f.proposal == p && f.inAsset == asset.id && FairReturn(d, t.amount - t.fee, f.released))
  {
    ExecutedMeansPaid(cfg, env', later, p);
    ClaimReturnsTheDeposit(cfg, pairs, env, s, origin, asset, dest, d, later, p);
  }

  /** And on this chain it is the recipient who gets it, and the reserve of a reserved asset that gives it. */
  lemma ReturnIsReceived(cfg: Config, env: Env, s: State, p: Proposal, who: Account)
    requires LocalRecipient(cfg, p) && IsExecuted(cfg, env, s, p)
    ensures var s' := ExecuteOne(cfg, env, s, p);
            && s'.flows != [] && s'.flows[|s'.flows| - 1].Inbound?
            && (var f := s'.flows[|s'.flows| - 1];
                && f.inAsset in cfg.reserveAccounts
                && Balance(s'.ledger, f.inAsset, who)
                   + Gain(who == cfg.reserveAccounts[f.inAsset] && cfg.isReserve(Units(f.inAsset, f.released)),
                          f.released)
                   == Balance(s.ledger, f.inAsset, who) + Gain(AccountOf(cfg, f.to) == Some(who), f.released))
  {
    ExecutedMeansPaid(cfg, env, s, p);
    var c := ClaimOf(cfg, s, p).value;
    PaidExactlyWhen(cfg, env, s, c);
    ClaimIsAsked(cfg, s, p);
  }

  lemma TripAmounts(pairs: seq<(AssetId, u8)>, a: AssetId, d: u8, b: u128, announced: u128, released: u128)
    requires FirstEntry<AssetId, u8>(pairs, a, d)
    requires ConvertTo(pairs, Units(a, b)) == Some(announced) && ConvertedAmount(pairs, a, announced) == Some(released)
    ensures FairReturn(d, b, released)
  {
    ConvertToMeaning(pairs, a, d, b);
    ConvertFromMeaning(pairs, a, d, announced);
    RoundTripLoss(d, b);
  }
}
