/** Fees in basis points of the amount, between two bounds. */
module PercentageFee {
  import opened Prelude
  import opened Xcm
  import FixedPoint

  datatype Rate = Rate(basisPoints: u32, lower: u128, upper: u128)

  type Rates = map<(u8, AssetId), Rate>

  datatype FeeEvent = FeeRateSet(domain: u8, asset: AssetId, rate: Rate)

  datatype FeeError = AccessDenied | FeeRateOutOfRange | InvalidFeeBound

  predicate ValidRate(r: Rate) {
    r.basisPoints < 10_000 && r.lower < r.upper
  }

  ghost predicate ValidRates(rates: Rates) {
    forall k :: k in rates ==> ValidRate(rates[k])
  }

  /** `amount.saturating_mul(rate).saturating_div(10000)` */
  function Proportion(amount: u128, basisPoints: u32): u128 {
    Share(amount * basisPoints)
  }

  function Share(product: nat): u128 {
    Min(product, TWO_128 - 1) / 10_000
  }

  /** A fee brought within the bounds of its rate. */
  function Clamp(r: Rate, fee: nat): nat {
    if fee > r.upper then r.upper else if fee < r.lower then r.lower else fee
  }

  function FeeAt(r: Rate, amount: u128): u128 {
    Clamp(r, Proportion(amount, r.basisPoints))
  }

  /** The handler's answer to the bridge. */
  function GetFee(rates: Rates, domain: u8, asset: MultiAsset): Option<u128> {
    if asset.fun.Fungible? && (domain, asset.id) in rates
    then Some(FeeAt(rates[(domain, asset.id)], asset.fun.amount))
    else None
  }

  function SetRate(rates: Rates, access: bool, domain: u8, asset: AssetId, r: Rate): Result<Rates, FeeError> {
    var _ :- Ensure(access, AccessDenied);
    var _ :- Ensure(r.basisPoints < 10_000, FeeRateOutOfRange);
    var _ :- Ensure(r.lower < r.upper, InvalidFeeBound);
    Success(rates[(domain, asset) := r])
  }

  predicate WithinBounds(r: Rate, amount: u128, fee: u128) {
    r.lower <= fee <= r.upper && (fee < amount <==> r.lower < amount)
  }

  class FeeHandler {
    var rates: Rates
    var events: seq<FeeEvent>

    ghost predicate Valid()
      reads this
    {
      ValidRates(rates)
    }

    constructor ()
      ensures Valid() && rates == map[] && events == []
    {
      rates, events := map[], [];
    }

    method SetFeeRate(access: bool, domain: u8, asset: AssetId, basisPoints: u32, lower: u128, upper: u128)
      returns (r: Result<(), FeeError>)
      requires Valid()
      modifies this
      ensures Valid()
      ensures match SetRate(old(rates), access, domain, asset, Rate(basisPoints, lower, upper))
              case Success(next) =>
                && r.Success? && rates == next
                && events == old(events) + [FeeRateSet(domain, asset, Rate(basisPoints, lower, upper))]
              case Failure(e) => r == Failure(e) && rates == old(rates) && events == old(events)
    {
      if !access { return Failure(AccessDenied); }
      if basisPoints >= 10_000 { return Failure(FeeRateOutOfRange); }
      if lower >= upper { return Failure(InvalidFeeBound); }
      rates := rates[(domain, asset) := Rate(basisPoints, lower, upper)];
      events := events + [FeeRateSet(domain, asset, Rate(basisPoints, lower, upper))];
      return Success(());
    }

    /** What the bridge asks; its check that the amount exceeds the fee is a check of the lower bound. */
    method Charge(domain: u8, asset: MultiAsset) returns (fee: Option<u128>)
      requires Valid()
      ensures fee == GetFee(rates, domain, asset)
      ensures fee.Some? ==> WithinBounds(rates[(domain, asset.id)], asset.fun.amount, fee.value)
    {
      if asset.fun.NonFungible? || (domain, asset.id) !in rates { return None; }
      var rate := rates[(domain, asset.id)];
      FeeIsWithinBounds(rate, asset.fun.amount);
      var share := Proportion(asset.fun.amount, rate.basisPoints);
      if share > rate.upper { return Some(rate.upper); }
      if share < rate.lower { return Some(rate.lower); }
      return Some(share);
    }
  }

  // ---- Runs

  datatype Setting = Setting(access: bool, domain: u8, asset: AssetId, rate: Rate)

  function Configured(settings: seq<Setting>): Rates {
    if settings == [] then map[]
    else
      var rates, s := Configured(settings[..|settings| - 1]), settings[|settings| - 1];
      var r := SetRate(rates, s.access, s.domain, s.asset, s.rate);
      if r.Success? then r.value else rates
  }

  lemma {:induction false} ReachableRatesAreValid(settings: seq<Setting>)
    ensures ValidRates(Configured(settings))
  {
    if settings != [] {
      ReachableRatesAreValid(settings[..|settings| - 1]);
    }
  }

  /** A proper fraction of a positive amount is smaller than the amount, saturated or not. */
  lemma ProportionIsSmaller(amount: u128, basisPoints: u32)
    requires basisPoints < 10_000
    ensures Proportion(amount, basisPoints) * 10_000 <= amount * basisPoints
    ensures if amount == 0 then Proportion(amount, basisPoints) == 0 else Proportion(amount, basisPoints) < amount
  {
    if amount > 0 {
      FixedPoint.MulMonotone(amount, basisPoints, 9_999);
    }
  }

  lemma ProportionIsMonotone(x: u128, y: u128, basisPoints: u32)
    requires x <= y
    ensures Proportion(x, basisPoints) <= Proportion(y, basisPoints)
  {
    FixedPoint.MulMonotone(basisPoints, x, y);
  }

  lemma FeeIsWithinBounds(r: Rate, amount: u128)
    requires ValidRate(r)
    ensures WithinBounds(r, amount, FeeAt(r, amount))
  {
    ProportionIsSmaller(amount, r.basisPoints);
  }

  /**
   * In every reachable configuration and for every amount: the fee lies within its bounds, a larger amount never
   * pays a smaller fee, and the amount exceeds its fee - the bridge's own check - exactly when it exceeds the lower
   * bound.
   */
  lemma FeesAreReasonable(settings: seq<Setting>, domain: u8, id: AssetId, x: u128, y: u128)
    requires (domain, id) in Configured(settings) && x <= y
    ensures var rates := Configured(settings);
            var rate := rates[(domain, id)];
            var fee := GetFee(rates, domain, MultiAsset(id, Fungible(x)));
            && fee.Some? && WithinBounds(rate, x, fee.value)
            && fee.value <= GetFee(rates, domain, MultiAsset(id, Fungible(y))).value
  {
    ReachableRatesAreValid(settings);
    var rate := Configured(settings)[(domain, id)];
    FeeIsWithinBounds(rate, x);
    ProportionIsMonotone(x, y, rate.basisPoints);
  }

  /** The fee without the 128-bit limit on the product. */
  function IdealFee(r: Rate, amount: nat): nat {
    Clamp(r, amount * r.basisPoints / 10_000)
  }

  const LARGEST_PROPORTION: nat := (TWO_128 - 1) / 10_000

  /**
   * The charged fee is the ideal one, except exactly when the product saturates and the upper bound leaves room to
   * notice: then it is too small.
   */
  lemma SaturationOnlyUndercharges(r: Rate, amount: u128)
    requires ValidRate(r)
    ensures FeeAt(r, amount) <= IdealFee(r, amount)
    ensures var share := amount * r.basisPoints / 10_000;
            FeeAt(r, amount) == IdealFee(r, amount) <==>
            share <= LARGEST_PROPORTION || r.upper <= LARGEST_PROPORTION || share <= r.lower
  {
    var product := amount * r.basisPoints;
    assert product >= 0;
    CappedFee(r, product);
  }

  /** A failing input: the largest amount at the largest rate, with no upper bound to speak of. */
  lemma SaturationUnderchargesHere()
    ensures var r := Rate(9_999, 0, TWO_128 - 1);
            ValidRate(r) && FeeAt(r, TWO_128 - 1) == LARGEST_PROPORTION < IdealFee(r, TWO_128 - 1)
  {
    var r := Rate(9_999, 0, TWO_128 - 1);
    ShareIsCapped((TWO_128 - 1) * 9_999);
  }

  /** The same with the product as a number of its own. */
  lemma CappedFee(r: Rate, product: nat)
    requires ValidRate(r)
    ensures Clamp(r, Share(product)) <= Clamp(r, product / 10_000)
    ensures Clamp(r, Share(product)) == Clamp(r, product / 10_000) <==>
            product / 10_000 <= LARGEST_PROPORTION || r.upper <= LARGEST_PROPORTION || product / 10_000 <= r.lower
  {
    ShareIsCapped(product);
  }

  lemma ShareIsCapped(product: nat)
    ensures Share(product) == Min(product / 10_000, LARGEST_PROPORTION)
  {}

  /** The product that the fee is a ten-thousandth of. */
  function Product(r: Rate, amount: u128): nat {
    FixedPoint.MulMonotone(amount, 0, r.basisPoints);
    Min(amount * r.basisPoints, TWO_128 - 1)
  }

  /**
   * The fee is a ten-thousandth of the saturated product, rounded down, unless a bound takes its place: the lower one
   * when that is not less than the share, the upper one when that is not more.
   */
  lemma FeeIsTheBoundedShare(r: Rate, amount: u128)
    requires ValidRate(r)
    ensures var fee, product := FeeAt(r, amount), Product(r, amount);
            || (r.lower <= fee <= r.upper && fee * 10_000 <= product < (fee + 1) * 10_000)
            || (fee == r.lower && product < r.lower * 10_000)
            || (fee == r.upper && product >= r.upper * 10_000)
  {
    ShareIsFloor(Product(r, amount));
  }

  lemma ShareIsFloor(product: nat)
    requires product < TWO_128
    ensures Share(product) * 10_000 <= product < (Share(product) + 1) * 10_000
  {}

  /** A setting that the handler accepts. */
  predicate Effective(s: Setting) {
    s.access && s.rate.basisPoints < 10_000 && s.rate.lower < s.rate.upper
  }

  predicate Sets(s: Setting, domain: u8, asset: AssetId) {
    Effective(s) && s.domain == domain && s.asset == asset
  }

  /** The last accepted setting for the domain and the asset. */
  ghost predicate IsLatest(settings: seq<Setting>, domain: u8, asset: AssetId, i: int) {
    0 <= i < |settings| && Sets(settings[i], domain, asset)
    && forall j :: i < j < |settings| ==> !Sets(settings[j], domain, asset)
  }

  lemma ConfiguredOne(settings: seq<Setting>, s: Setting, domain: u8, asset: AssetId)
    ensures var before, after := Configured(settings), Configured(settings + [s]);
            if Sets(s, domain, asset) then (domain, asset) in after && after[(domain, asset)] == s.rate
            else ((domain, asset) in after <==> (domain, asset) in before)
                 && ((domain, asset) in before ==> after[(domain, asset)] == before[(domain, asset)])
  {
    assert (settings + [s])[..|settings|] == settings;
  }

  lemma LatestOfMore(settings: seq<Setting>, s: Setting, domain: u8, asset: AssetId, i: int)
    ensures IsLatest(settings + [s], domain, asset, i) <==>
            if Sets(s, domain, asset) then i == |settings| else IsLatest(settings, domain, asset, i)
  {
    var more := settings + [s];
    assert forall j :: 0 <= j < |settings| ==> more[j] == settings[j];
    if Sets(s, domain, asset) { assert more[|settings|] == s; }
    if IsLatest(settings, domain, asset, i) && !Sets(s, domain, asset) {
      assert forall j :: i < j < |more| ==> j == |settings| || more[j] == settings[j];
    }
  }

  lemma {:induction false} RatesAreTheLatest(settings: seq<Setting>, domain: u8, asset: AssetId)
    ensures (domain, asset) in Configured(settings) <==> exists i :: IsLatest(settings, domain, asset, i)
    ensures forall i :: IsLatest(settings, domain, asset, i) ==>
              (domain, asset) in Configured(settings) && Configured(settings)[(domain, asset)] == settings[i].rate
  {
    if settings != [] {
      var init, last := settings[..|settings| - 1], settings[|settings| - 1];
      assert settings == init + [last];
      RatesAreTheLatest(init, domain, asset);
      ConfiguredOne(init, last, domain, asset);
      forall i
        ensures IsLatest(settings, domain, asset, i) <==>
                if Sets(last, domain, asset) then i == |init| else IsLatest(init, domain, asset, i)
      {
        LatestOfMore(init, last, domain, asset, i);
      }
      if Sets(last, domain, asset) {
        assert IsLatest(settings, domain, asset, |init|);
      } else if (domain, asset) in Configured(init) {
        var i :| IsLatest(init, domain, asset, i);
        assert IsLatest(settings, domain, asset, i);
      }
    }
  }

  /** What the bridge is told is the fee at the rate set last, and nothing where none was set. */
  lemma LatestRateIsCharged(settings: seq<Setting>, domain: u8, asset: AssetId, amount: u128, i: int)
    ensures IsLatest(settings, domain, asset, i) ==>
              GetFee(Configured(settings), domain, MultiAsset(asset, Fungible(amount)))
              == Some(FeeAt(settings[i].rate, amount))
    ensures (forall k :: !IsLatest(settings, domain, asset, k)) ==>
              GetFee(Configured(settings), domain, MultiAsset(asset, Fungible(amount))) == None
    ensures GetFee(Configured(settings), domain, MultiAsset(asset, NonFungible(amount))) == None
  {
    RatesAreTheLatest(settings, domain, asset);
  }
}
