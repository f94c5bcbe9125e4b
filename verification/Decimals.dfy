/** Conversion between an asset's own decimals and the 18 decimals used by the relayers. */
module Decimals {
  import opened Prelude
  import opened Xcm
  import opened FixedPoint

  function Pow10(k: nat): (p: nat)
    ensures p > 0
  {
    if k == 0 then 1 else 10 * Pow10(k - 1)
  }

  /** `10u128.saturating_pow(k)` */
  function SaturatingPow10(k: nat): u128 {
    Min(Pow10(k), TWO_128 - 1)
  }

  function DivideBy(amount: u128, k: nat): Option<u128> {
    var b := CheckedDiv(FromNum(amount), FromNum(SaturatingPow10(k)));
    var r := ToNum(if b.Some? then b.value else FromNum(0));
    if r == 0 then None else Some(r)
  }

  function MultiplyBy(amount: u128, k: nat): Option<u128> {
    if amount >= TWO_112 then None
    else Some(ToNum(SaturatingMul(FromNum(amount), FromNum(SaturatingPow10(k)))))
  }

  /** Units of the asset to 18-decimal units. */
  function ConvertTo(pairs: seq<(AssetId, u8)>, asset: MultiAsset): Option<u128> {
    match asset.fun
    case NonFungible(_) => None
    case Fungible(amount) =>
      match FirstMatch<AssetId, u8>(pairs, asset.id)
      case None => None
      case Some(d) =>
        if d == 18 then Some(amount)
        else if d > 18 then DivideBy(amount, d - 18)
        else MultiplyBy(amount, 18 - d)
  }

  /** 18-decimal units to units of the asset. */
  function ConvertFrom(pairs: seq<(AssetId, u8)>, asset: MultiAsset): Option<MultiAsset> {
    match asset.fun
    case NonFungible(_) => None
    case Fungible(amount) =>
      match FirstMatch<AssetId, u8>(pairs, asset.id)
      case None => None
      case Some(d) =>
        if d == 18 then Some(asset)
        else
          var r := if d > 18 then MultiplyBy(amount, d - 18) else DivideBy(amount, 18 - d);
          if r.None? then None else Some(MultiAsset(asset.id, Fungible(r.value)))
  }

  lemma {:induction false} Pow10Grows(j: nat, k: nat)
    requires j <= k
    ensures Pow10(j) <= Pow10(k)
  {
    if j < k { Pow10Grows(j, k - 1); }
  }

  lemma Pow10Values()
    ensures Pow10(33) == 1_000_000_000_000_000_000_000_000_000_000_000
    ensures Pow10(34) == 10_000_000_000_000_000_000_000_000_000_000_000
    ensures Pow10(35) == 100_000_000_000_000_000_000_000_000_000_000_000
    ensures Pow10(36) == 1_000_000_000_000_000_000_000_000_000_000_000_000
    ensures Pow10(37) == 10_000_000_000_000_000_000_000_000_000_000_000_000
    ensures Pow10(38) == 100_000_000_000_000_000_000_000_000_000_000_000_000
    ensures Pow10(39) > TWO_128
  {
    assert Pow10(10) == 10_000_000_000;
    assert Pow10(20) == 100_000_000_000_000_000_000;
    assert Pow10(30) == 1_000_000_000_000_000_000_000_000_000_000;
  }

  lemma LargeScale(k: nat)
    requires 34 <= k <= 38
    ensures TWO_112 < Pow10(k) < TWO_128 && Pow10(k) % TWO_112 > 0
  {
    Pow10Values();
    if k == 34 {
    } else if k == 35 {
    } else if k == 36 {
    } else if k == 37 {
    } else {
    }
  }

  /** The scale is never zero, and it is the true power of ten exactly up to 33 decimals apart. */
  lemma ScaleIsExactUpTo33(k: nat)
    ensures SaturatingPow10(k) % TWO_112 > 0
    ensures SaturatingPow10(k) % TWO_112 == Pow10(k) <==> k <= 33
  {
    if k <= 33 {
      SmallScale(k);
      assert SaturatingPow10(k) == Pow10(k);
    } else if k >= 39 {
      HugePow(k);
      assert SaturatingPow10(k) == TWO_128 - 1;
    } else {
      LargeScale(k);
      assert SaturatingPow10(k) == Pow10(k);
    }
  }

  lemma SmallScale(k: nat)
    requires k <= 33
    ensures Pow10(k) < TWO_112
  {
    Pow10Values();
    Pow10Grows(k, 33);
  }

  lemma HugePow(k: nat)
    requires k >= 39
    ensures Pow10(k) > TWO_128
  {
    Pow10Values();
    Pow10Grows(39, k);
  }

  /** The factor the fixed-point arithmetic really scales by. */
  function Scale(k: nat): (s: nat)
    ensures 0 < s < TWO_112
  {
    ScaleIsExactUpTo33(k);
    SaturatingPow10(k) % TWO_112
  }

  /** Integer quotient of the amount that is left after wrapping to 112 bits. */
  function WrappedQuotient(amount: nat, s: nat): (q: nat)
    requires s > 0
    ensures q * s <= amount
  {
    var q := (amount % TWO_112) / s;
    assert q * s <= amount % TWO_112 <= amount;
    q
  }

  /** Integer product capped at the largest 112-bit number. */
  function CappedProduct(amount: nat, s: nat): (p: nat)
    ensures p < TWO_112 && p <= amount * s
    ensures amount * s < TWO_112 ==> p == amount * s
  {
    var p := amount * s;
    MulMonotone(amount, 0, s);
    if p < TWO_112 then p else TWO_112 - 1
  }

  /** Division branches: the wrapped amount divided by the scale, refused when that is zero. */
  lemma DivideByMeaning(amount: u128, k: nat)
    ensures var q := WrappedQuotient(amount, Scale(k));
            DivideBy(amount, k) == if q == 0 then None else Some(q)
  {
    ScaleIsExactUpTo33(k);
    DivisionIsFloor(amount, SaturatingPow10(k));
  }

  /** Multiplication branches: refused from 2^112 on, otherwise the product capped at 2^112 - 1. */
  lemma MultiplyByMeaning(amount: u128, k: nat)
    ensures MultiplyBy(amount, k) ==
            if amount >= TWO_112 then None else Some(CappedProduct(amount, Scale(k)))
  {
    if amount < TWO_112 {
      MultiplicationIsCapped(amount, SaturatingPow10(k));
    }
  }

  // ---- Against the power of ten

  function Quotient(x: nat, d: nat): nat
    requires d > 0
  {
    x / d
  }

  function Remainder(x: nat, d: nat): nat
    requires d > 0
  {
    x % d
  }

  /** The converter refuses an amount of which nothing is left. */
  function Positive(q: nat): Option<nat> {
    if q == 0 then None else Some(q)
  }

  /** Division by the power of ten. */
  function Floor(amount: nat, k: nat): Option<nat> {
    Positive(Quotient(amount, Pow10(k)))
  }

  /** Whether dividing by `s` what is left of `amount` after wrapping gives its quotient by `p`. */
  predicate Fits(amount: nat, p: nat, s: nat)
    requires p > 0
  {
    var q, r := Quotient(amount, p), Remainder(amount, p) % TWO_112;
    r < s && q * s + r < TWO_112
  }

  /**
   * Whether the dividing branch is right about `amount`, from its quotient and remainder by the power of ten: the
   * remainder, wrapped to 112 bits, must stay below the scale, and the scaled quotient with it within 112 bits.
   */
  predicate DividesExactly(amount: nat, k: nat) {
    Fits(amount, Pow10(k), Scale(k))
  }

  lemma QuotientBelow(x: nat, d: nat, q: nat)
    requires d > 0 && x < d * q
    ensures x / d < q
  {
    assert x == d * (x / d) + x % d;
    if x / d >= q { MulMonotone(d, q, x / d); }
  }

  /** Dividing what is left of `y = q * s + r` after wrapping gives `q` exactly when nothing overflows. */
  lemma WrappedDivision(q: nat, s: nat, r: nat, y: nat)
    requires s > 0 && r < TWO_112 && y == s * q + r
    ensures (y % TWO_112) / s == q <==> r < s && y < TWO_112
  {
    if y >= TWO_112 {
      assert y % TWO_112 <= y - TWO_112;
      QuotientBelow(y % TWO_112, s, q);
    } else if r < s {
      QuotientUnique(y, s, q, r);
    } else {
      Distribute(s, q, 1);
      QuotientAtLeast(y, s, q + 1);
    }
  }

  lemma WholeWraps(m: nat, y: nat)
    ensures (m * TWO_112 + y) % TWO_112 == y % TWO_112
  {}

  lemma Regroup(x: nat, q: nat, c: nat, s: nat, j: nat, r: nat)
    requires x == (c * TWO_112 + s) * q + (j * TWO_112 + r)
    ensures q * c + j >= 0 && s * q + r >= 0 && x == (q * c + j) * TWO_112 + (s * q + r)
  {
    Distribute(q, c * TWO_112, s);
    Associate(q, c, TWO_112);
    MulMonotone(q, 0, c);
    MulMonotone(q, 0, s);
  }

  /** The scale differs from the power of ten by whole wraps, and so does what either makes of a quotient. */
  lemma AmountModulo(amount: nat, p: nat, s: nat, c: nat, q: nat, m: nat)
    requires p == c * TWO_112 + s && amount == p * q + m
    ensures s * q + m % TWO_112 >= 0 && amount % TWO_112 == (s * q + m % TWO_112) % TWO_112
  {
    var j, r := m / TWO_112, m % TWO_112;
    Regroup(amount, q, c, s, j, r);
    WholeWraps(q * c + j, s * q + r);
  }

  lemma WrappedModulo(amount: nat, s: nat, q: nat, r: nat)
    requires s > 0 && r < TWO_112 && s * q + r >= 0 && amount % TWO_112 == (s * q + r) % TWO_112
    ensures WrappedQuotient(amount, s) == q <==> r < s && s * q + r < TWO_112
  {
    WrappedDivision(q, s, r, s * q + r);
  }

  lemma QuotientFits(amount: nat, p: nat, s: nat, c: nat)
    requires s > 0 && p == c * TWO_112 + s
    ensures WrappedQuotient(amount, s) == Quotient(amount, p) <==> Fits(amount, p, s)
  {
    var q, m := Quotient(amount, p), Remainder(amount, p);
    DivisionFacts(amount, p);
    AmountModulo(amount, p, s, c, q, m);
    WrappedModulo(amount, s, q, m % TWO_112);
    assert q * s == s * q;
  }

  lemma DivisionFacts(x: nat, d: nat)
    requires d > 0
    ensures x == d * Quotient(x, d) + Remainder(x, d) && Remainder(x, d) < d
  {}

  lemma SmallQuotient(x: nat, d: nat)
    requires x < d
    ensures Quotient(x, d) == 0 && Remainder(x, d) == x
  {
    QuotientUnique(x, d, 0, x);
  }

  /**
   * An amount below the power of ten ought to be refused, and is exactly when what is left of it is below the scale.
   */
  lemma NothingFits(amount: nat, p: nat, s: nat)
    requires s > 0 && amount < p
    ensures Quotient(amount, p) == 0
    ensures Fits(amount, p, s) <==> amount % TWO_112 < s
    ensures WrappedQuotient(amount, s) == 0 <==> amount % TWO_112 < s
  {
    SmallQuotient(amount, p);
    assert 0 * s == 0;
    var w := amount % TWO_112;
    if w < s { SmallQuotient(w, s); } else { QuotientAtLeast(w, s, 1); }
  }

  lemma PowBelow39(k: nat)
    requires k < 39
    ensures Pow10(k) < TWO_128 && Scale(k) == Pow10(k) % TWO_112
  {
    Pow10Values();
    Pow10Grows(k, 38);
  }

  lemma PowFrom39(k: nat)
    requires k >= 39
    ensures Pow10(k) > TWO_128 && Scale(k) == TWO_112 - 1
  {
    HugePow(k);
  }

  /**
   * The dividing branch computes the floor for exactly the amounts that `DividesExactly` admits, whatever the number
   * of decimals.
   */
  lemma DivideByIsFloorExactlyWhen(amount: u128, k: nat)
    ensures DivideBy(amount, k) == Floor(amount, k) <==> DividesExactly(amount, k)
  {
    DivideByMeaning(amount, k);
    assert DivideBy(amount, k) == Positive(WrappedQuotient(amount, Scale(k)));
    if k < 39 {
      PowBelow39(k);
      QuotientFits(amount, Pow10(k), Scale(k), Pow10(k) / TWO_112);
    } else {
      PowFrom39(k);
      NothingFits(amount, Pow10(k), Scale(k));
    }
  }

  /** Up to 33 decimals apart these are the amounts below 2^112. */
  lemma DividesExactlyUpTo33(amount: u128, k: nat)
    requires k <= 33
    ensures DividesExactly(amount, k) <==> amount < TWO_112
  {
    ScaleIsExactUpTo33(k);
    SmallScale(k);
    FitsItself(amount, Pow10(k));
  }

  lemma FitsItself(amount: nat, p: nat)
    requires 0 < p < TWO_112
    ensures Fits(amount, p, p) <==> amount < TWO_112
  {
    assert amount == p * (amount / p) + amount % p;
    assert Remainder(amount, p) < p;
  }

  /** Beyond that, an amount below 2^112 ought to be refused, and is exactly below the scale. */
  lemma DividesExactlyBeyond33(amount: u128, k: nat)
    requires k > 33 && amount < TWO_112
    ensures Floor(amount, k) == None
    ensures DividesExactly(amount, k) <==> amount < Scale(k)
  {
    PowBeyond33(k);
    NothingFits(amount, Pow10(k), Scale(k));
  }

  /** From 39 decimals on every amount ought to be refused, and all are but those one short of a wrap. */
  lemma DividesExactlyFrom39(amount: u128, k: nat)
    requires k >= 39
    ensures Floor(amount, k) == None
    ensures DividesExactly(amount, k) <==> amount % TWO_112 != TWO_112 - 1
  {
    PowFrom39(k);
    NothingFits(amount, Pow10(k), Scale(k));
  }

  /** Two failing inputs: an amount that wraps, and one that is divided by a wrapped scale. */
  lemma DivideByMisses()
    ensures DivideBy(TWO_112, 1) != Floor(TWO_112, 1)
    ensures DivideBy(TWO_112 - 1, 39) == Some(1) && Floor(TWO_112 - 1, 39) == None
  {
    DividesExactlyUpTo33(TWO_112, 1);
    DivideByIsFloorExactlyWhen(TWO_112, 1);
    DividesExactlyFrom39(TWO_112 - 1, 39);
    PowFrom39(39);
    DivideByMeaning(TWO_112 - 1, 39);
    assert WrappedQuotient(TWO_112 - 1, TWO_112 - 1) == 1;
  }

  lemma CapOfLargeScale(amount: nat, s: nat, p: nat)
    requires p >= TWO_112
    ensures CappedProduct(amount, s) == CappedProduct(amount, p) <==> amount == 0 || amount * s >= TWO_112 - 1
  {
    if amount == 0 {
      assert 0 * s == 0 && 0 * p == 0;
    } else {
      MulMonotone(p, 1, amount);
    }
  }

  /**
   * The multiplying branch, for every amount it accepts, is the product with the power of ten capped at 2^112 - 1
   * exactly up to 33 decimals apart, for nothing, and where the wrapped product reaches the cap as well.
   */
  lemma MultiplyByIsProductExactlyWhen(amount: u128, k: nat)
    requires amount < TWO_112
    ensures MultiplyBy(amount, k) == Some(CappedProduct(amount, Pow10(k))) <==>
            k <= 33 || amount == 0 || amount * Scale(k) >= TWO_112 - 1
  {
    MultiplyByMeaning(amount, k);
    if k <= 33 {
      ScaleIsExactUpTo33(k);
    } else {
      PowBeyond33(k);
      CapOfLargeScale(amount, Scale(k), Pow10(k));
    }
  }

  lemma PowBeyond33(k: nat)
    requires k > 33
    ensures Pow10(k) > TWO_112
  {
    Pow10Values();
    Pow10Grows(34, k);
  }

  /** A failing input: one unit comes out as the wrapped scale. */
  lemma MultiplyByMisses()
    ensures MultiplyBy(1, 34) == Some(Scale(34)) && Scale(34) < TWO_112 - 1 < Pow10(34)
  {
    Pow10Values();
    MultiplyByMeaning(1, 34);
    PowBelow39(34);
  }

  lemma QuotientAtLeast(x: nat, d: nat, q: nat)
    requires d > 0 && x >= d * q
    ensures x / d >= q
  {
    assert x == d * (x / d) + x % d;
    if x / d < q { MulMonotone(d, x / d + 1, q); }
  }

  lemma QuotientMonotone(x: nat, y: nat, d: nat)
    requires x <= y && d > 0
    ensures x / d <= y / d
  {
    assert x == d * (x / d) + x % d;
    QuotientAtLeast(y, d, x / d);
  }

  lemma QuotientsGrow(x: nat, y: nat, s: nat)
    requires x <= y < TWO_112 && s > 0
    ensures WrappedQuotient(x, s) <= WrappedQuotient(y, s)
  {
    assert x % TWO_112 == x && y % TWO_112 == y;
    QuotientMonotone(x, y, s);
    assert WrappedQuotient(x, s) == x / s && WrappedQuotient(y, s) == y / s;
  }

  lemma ProductsGrow(x: nat, y: nat, s: nat)
    requires x <= y
    ensures CappedProduct(x, s) <= CappedProduct(y, s)
  {
    MulMonotone(s, x, y);
  }

  /** Below the wrap-around both directions are monotone, with a refusal counting as zero. */
  lemma ConversionsAreMonotone(x: u128, y: u128, k: nat)
    requires x <= y < TWO_112
    ensures DivideBy(x, k).Some? ==> DivideBy(y, k).Some? && DivideBy(x, k).value <= DivideBy(y, k).value
    ensures MultiplyBy(x, k).Some? && MultiplyBy(y, k).Some? && MultiplyBy(x, k).value <= MultiplyBy(y, k).value
  {
    QuotientsGrow(x, y, Scale(k));
    ProductsGrow(x, y, Scale(k));
    DivideByMeaning(x, k);
    DivideByMeaning(y, k);
    MultiplyByMeaning(x, k);
    MultiplyByMeaning(y, k);
  }

  /** What a deposit of `amount` units of an asset with `d` decimals announces, zero where it is refused. */
  function AnnouncedFor(d: u8, amount: nat): nat {
    if d == 18 then amount
    else if d > 18 then WrappedQuotient(amount, Scale(d - 18))
    else if amount >= TWO_112 then 0
    else CappedProduct(amount, Scale(18 - d))
  }

  /** What `amount18` units of 18 decimals are worth in an asset with `d` decimals. */
  function WorthOf(d: u8, amount18: nat): nat {
    if d == 18 then amount18
    else if d > 18 then CappedProduct(amount18, Scale(d - 18))
    else WrappedQuotient(amount18, Scale(18 - d))
  }

  lemma ConvertToMeaning(pairs: seq<(AssetId, u8)>, id: AssetId, d: u8, amount: u128)
    requires FirstEntry<AssetId, u8>(pairs, id, d)
    ensures var r := ConvertTo(pairs, MultiAsset(id, Fungible(amount)));
            && (r.None? <==> (d > 18 && AnnouncedFor(d, amount) == 0) || (d < 18 && amount >= TWO_112))
            && (r.Some? ==> r.value == AnnouncedFor(d, amount))
  {
    FirstEntryIsFound<AssetId, u8>(pairs, id, d);
    if d > 18 { DivideByMeaning(amount, d - 18); }
    if d < 18 { MultiplyByMeaning(amount, 18 - d); }
  }

  lemma ConvertFromMeaning(pairs: seq<(AssetId, u8)>, id: AssetId, d: u8, amount: u128)
    requires FirstEntry<AssetId, u8>(pairs, id, d)
    ensures var r := ConvertFrom(pairs, MultiAsset(id, Fungible(amount)));
            && (r.None? <==> (d > 18 && amount >= TWO_112) || (d < 18 && WorthOf(d, amount) == 0))
            && (r.Some? ==> r.value.id == id && r.value.fun.Fungible? && r.value.fun.amount == WorthOf(d, amount))
  {
    FirstEntryIsFound<AssetId, u8>(pairs, id, d);
    if d > 18 { MultiplyByMeaning(amount, d - 18); }
    if d < 18 { DivideByMeaning(amount, 18 - d); }
  }

  /** An asset without an entry is not converted at all. */
  lemma UnknownAssetIsRefused(pairs: seq<(AssetId, u8)>, id: AssetId, amount: u128)
    requires !HasEntry<AssetId, u8>(pairs, id)
    ensures ConvertTo(pairs, MultiAsset(id, Fungible(amount))).None?
    ensures ConvertFrom(pairs, MultiAsset(id, Fungible(amount))).None?
  {
    EntryIsFound<AssetId, u8>(pairs, id);
  }

  // ---- In whole units

  lemma {:induction false} Pow10Adds(j: nat, k: nat)
    ensures Pow10(j + k) == Pow10(j) * Pow10(k)
  {
    if j > 0 {
      Pow10Adds(j - 1, k);
      Associate(10, Pow10(j - 1), Pow10(k));
    }
  }

  /** `x` is `y` scaled up by `p`, or `y` is `x` scaled up and rounded down: then they compare as their units do. */
  lemma ScaledUp(x: nat, y: nat, p: nat, q: nat)
    requires x == y * p && q > 0
    ensures x * q <= y * (p * q) < (x + 1) * q
  {
    Associate(y, p, q);
    Distribute(q, x, 1);
  }

  lemma ScaledDown(x: nat, y: nat, p: nat, q: nat)
    requires p > 0 && q > 0 && x == y / p
    ensures x * (p * q) <= y * q < (x + 1) * (p * q)
  {
    assert y == p * x + y % p;
    Associate(x, p, q);
    Associate(x + 1, p, q);
    Distribute(p, x, 1);
    MulMonotone(q, p * x, y);
    MulMonotone(q, y + 1, p * (x + 1));
    Distribute(q, y, 1);
  }

  lemma ExactProduct(n: nat, k: nat)
    requires k <= 33 && n * Pow10(k) < TWO_112
    ensures n < TWO_112 && CappedProduct(n, Scale(k)) == n * Pow10(k)
  {
    ScaleIsExactUpTo33(k);
    MulMonotone(n, 1, Pow10(k));
  }

  lemma ExactQuotient(n: nat, k: nat)
    requires k <= 33 && n < TWO_112
    ensures WrappedQuotient(n, Scale(k)) == Quotient(n, Pow10(k))
  {
    ScaleIsExactUpTo33(k);
    NothingWraps(n, Pow10(k));
  }

  lemma NothingWraps(n: nat, s: nat)
    requires n < TWO_112 && s > 0
    ensures WrappedQuotient(n, s) == Quotient(n, s)
  {
    assert n % TWO_112 == n;
  }

  /** `x` units at `k` decimals are the same number as `y` units at `j`, rounded down. */
  predicate SameWorth(x: nat, j: nat, y: nat, k: nat) {
    x * Pow10(j) <= y * Pow10(k) < (x + 1) * Pow10(j)
  }

  lemma FinerUnits(y: nat, j: nat, k: nat)
    requires k <= j
    ensures y * Pow10(j - k) >= 0 && SameWorth(y * Pow10(j - k), k, y, j)
  {
    MulMonotone(y, 0, Pow10(j - k));
    Pow10Adds(j - k, k);
    ScaledUp(y * Pow10(j - k), y, Pow10(j - k), Pow10(k));
  }

  lemma CoarserUnits(y: nat, j: nat, k: nat)
    requires k <= j
    ensures SameWorth(Quotient(y, Pow10(j - k)), j, y, k)
  {
    Pow10Adds(j - k, k);
    ScaledDown(Quotient(y, Pow10(j - k)), y, Pow10(j - k), Pow10(k));
  }

  /**
   * Within 112 bits and for up to 51 decimals, a deposit announces what it is worth: `n` units at `d` decimals and the
   * announced units at 18 are the same number, rounded down.
   */
  lemma AnnouncedIsWorthTheDeposit(d: u8, n: nat)
    requires d <= 51 && if d < 18 then n * Pow10(18 - d) < TWO_112 else n < TWO_112
    ensures SameWorth(AnnouncedFor(d, n), d, n, 18)
  {
    if d < 18 {
      ExactProduct(n, 18 - d);
      FinerUnits(n, 18, d);
    } else if d > 18 {
      ExactQuotient(n, d - 18);
      CoarserUnits(n, d, 18);
    }
  }

  /** And a payment of announced units pays what they are worth. */
  lemma PaymentIsWorthTheAnnounced(d: u8, n: nat)
    requires d <= 51 && if d > 18 then n * Pow10(d - 18) < TWO_112 else n < TWO_112
    ensures SameWorth(WorthOf(d, n), 18, n, d)
  {
    if d < 18 {
      ExactQuotient(n, 18 - d);
      CoarserUnits(n, 18, d);
    } else if d > 18 {
      ExactProduct(n, d - 18);
      FinerUnits(n, d, 18);
    }
  }
}
