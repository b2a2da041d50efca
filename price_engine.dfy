/** The price computations of the pricing page: the custom calculator's
    effect, the predefined-bundle effect and the bundle-card helpers. Each sums
    its items in cents, applies the client's discount once to the sum and
    rounds half up to whole euros (`Math.round` of a non-negative amount). */
module PriceEngine {
  import opened Optional
  import opened PricingCatalog

  /** What the calculator shows: a one-time price, an optional monthly fee, and
      whether a consultation replaces the price. Prices are whole euros. */
  datatype Quote = Quote(oneTime: Option<nat>, monthly: Option<nat>, needsConsultation: bool)

  /** What a bundle shows: a price (None: "in consultation") and a monthly fee. */
  datatype BundleQuote = BundleQuote(price: Option<nat>, monthly: Option<nat>)

  /** `Math.round(n / d)` for n >= 0: the integer nearest to n / d, halves rounded up. */
  function RoundHalfUp(n: nat, d: nat): (r: nat)
    requires d > 0
    ensures d * (2 * r - 1) <= 2 * n < d * (2 * r + 1)
  {
    (2 * n + d) / (2 * d)
  }

  lemma {:induction false} RoundHalfUpMonotone(n1: nat, n2: nat, d: nat)
    requires d > 0 && n1 <= n2
    ensures RoundHalfUp(n1, d) <= RoundHalfUp(n2, d)
  {
    var r1, r2 := RoundHalfUp(n1, d), RoundHalfUp(n2, d);
    if r1 > r2 {
      assert 2 * r1 - 1 >= 2 * r2 + 1;
      assert d * (2 * r1 - 1) >= d * (2 * r2 + 1) by {
        MulMonotone(d, 2 * r2 + 1, 2 * r1 - 1);
      }
      assert false;
    }
  }

  lemma MulMonotone(d: nat, a: int, b: int)
    requires a <= b
    ensures d * a <= d * b
  {
    assert d * b - d * a == d * (b - a);
  }

  /** An amount in cents after the client's discount, rounded to whole euros:
      `Math.round(euros * (1 - discount))`. */
  function DiscountedEuros(cents: nat, c: ClientType): nat {
    RoundHalfUp(cents * (100 - DiscountPercent(c)), 10000)
  }

  predicate Discounted(x: nat, c: ClientType) {
    x * (100 - DiscountPercent(c)) > 0
  }

  /** Sum of the one-time add-ons of a package list, in list order (the `forEach`). */
  function OneTimeSum(pkgs: seq<Package>): nat {
    if pkgs == [] then 0
    else
      var last := pkgs[|pkgs| - 1];
      OneTimeSum(pkgs[..|pkgs| - 1]) + (if PackageIsMonthly(last) then 0 else PackagePrice(last))
  }

  /** Sum of the monthly add-ons of a package list. */
  function MonthlySum(pkgs: seq<Package>): nat {
    if pkgs == [] then 0
    else
      var last := pkgs[|pkgs| - 1];
      MonthlySum(pkgs[..|pkgs| - 1]) + (if PackageIsMonthly(last) then PackagePrice(last) else 0)
  }

  function PriceOrZero(p: Option<nat>): nat {
    if p.Some? then p.value else 0
  }

  /** Reference definition of the calculator's price effect. */
  function CalculatorQuote(c: ClientType, tier: Option<Tier>, dev: Option<DevType>, pkgs: seq<Package>): Quote {
    if tier.None? then Quote(None, None, false)
    else if tier.value == CustomMade then Quote(None, None, true)
    else if TierIsConsultation(tier.value) || (dev.Some? && DevTypeIsConsultation(dev.value)) then
      Quote(None, None, true)
    else if dev.None? then Quote(None, None, false)
    else
      var oneTime := PriceOrZero(TierPrice(tier.value)) + PriceOrZero(DevTypePrice(dev.value)) + OneTimeSum(pkgs);
      var monthly := MonthlySum(pkgs);
      Quote(Some(DiscountedEuros(oneTime, c)),
            if Discounted(monthly, c) then Some(DiscountedEuros(monthly, c)) else None,
            false)
  }

  /** The calculator effect: short-circuits, then the `forEach` over the
      selected packages, then one discount and one rounding of each total. */
  method ComputeCalculatorQuote(c: ClientType, tier: Option<Tier>, dev: Option<DevType>, pkgs: seq<Package>)
    returns (q: Quote)
    ensures q == CalculatorQuote(c, tier, dev, pkgs)
  {
    if tier.None? {
      return Quote(None, None, false);
    }
    if tier.value == CustomMade {
      return Quote(None, None, true);
    }
    if TierIsConsultation(tier.value) || (dev.Some? && DevTypeIsConsultation(dev.value)) {
      return Quote(None, None, true);
    }
    if dev.None? {
      return Quote(None, None, false);
    }
    var oneTimePrice: nat := 0;
    var monthlyPrice: nat := 0;
    if TierPrice(tier.value).Some? {
      oneTimePrice := oneTimePrice + TierPrice(tier.value).value;
    }
    if DevTypePrice(dev.value).Some? {
      oneTimePrice := oneTimePrice + DevTypePrice(dev.value).value;
    }
    var base := oneTimePrice;
    var i := 0;
    while i < |pkgs|
      invariant 0 <= i <= |pkgs|
      invariant oneTimePrice == base + OneTimeSum(pkgs[..i])
      invariant monthlyPrice == MonthlySum(pkgs[..i])
    {
      assert pkgs[..i + 1][..i] == pkgs[..i];
      if PackageIsMonthly(pkgs[i]) {
        monthlyPrice := monthlyPrice + PackagePrice(pkgs[i]);
      } else {
        oneTimePrice := oneTimePrice + PackagePrice(pkgs[i]);
      }
      i := i + 1;
    }
    assert pkgs[..|pkgs|] == pkgs;
    var monthly := if Discounted(monthlyPrice, c) then Some(DiscountedEuros(monthlyPrice, c)) else None;
    q := Quote(Some(DiscountedEuros(oneTimePrice, c)), monthly, false);
  }

  /** Reference definition of the predefined-bundle price effect. */
  function BundleQuoteOf(b: Option<Bundle>, c: ClientType): BundleQuote {
    if b.None? then BundleQuote(None, None) else DataQuote(BundleInfo(b.value), c)
  }

  /** The price effect for one bundle's catalog entry. */
  function DataQuote(info: BundleData, c: ClientType): BundleQuote {
    match info
    case FlatPrice(_, _, price, _) => BundleQuote(Some(DiscountedEuros(price, c)), None)
    case Composed(_, _, tier, dev, _, pkgs) =>
      if TierIsConsultation(tier) || DevTypeIsConsultation(dev) then BundleQuote(None, None)
      else
        var oneTime := PriceOrZero(TierPrice(tier)) + PriceOrZero(DevTypePrice(dev)) + OneTimeSum(pkgs);
        var monthly := MonthlySum(pkgs);
        BundleQuote(Some(DiscountedEuros(oneTime, c)),
                    if Discounted(monthly, c) then Some(DiscountedEuros(monthly, c)) else None)
  }

  /** The bundle effect. */
  method ComputeBundleQuote(b: Option<Bundle>, c: ClientType) returns (q: BundleQuote)
    ensures q == BundleQuoteOf(b, c)
  {
    if b.None? {
      return BundleQuote(None, None);
    }
    q := ComputeDataQuote(BundleInfo(b.value), c);
  }

  /** The bundle effect for one catalog entry, with its `forEach` over the
      bundle's packages. */
  method ComputeDataQuote(info: BundleData, c: ClientType) returns (q: BundleQuote)
    ensures q == DataQuote(info, c)
  {
    if info.FlatPrice? {
      return BundleQuote(Some(DiscountedEuros(info.price, c)), None);
    }
    if TierIsConsultation(info.tier) || DevTypeIsConsultation(info.devType) {
      return BundleQuote(None, None);
    }
    var oneTimePrice: nat := 0;
    var monthlyPrice: nat := 0;
    if TierPrice(info.tier).Some? {
      oneTimePrice := oneTimePrice + TierPrice(info.tier).value;
    }
    if DevTypePrice(info.devType).Some? {
      oneTimePrice := oneTimePrice + DevTypePrice(info.devType).value;
    }
    var base := oneTimePrice;
    var pkgs := info.packages;
    var i := 0;
    while i < |pkgs|
      invariant 0 <= i <= |pkgs|
      invariant oneTimePrice == base + OneTimeSum(pkgs[..i])
      invariant monthlyPrice == MonthlySum(pkgs[..i])
    {
      assert pkgs[..i + 1][..i] == pkgs[..i];
      if PackageIsMonthly(pkgs[i]) {
        monthlyPrice := monthlyPrice + PackagePrice(pkgs[i]);
      } else {
        oneTimePrice := oneTimePrice + PackagePrice(pkgs[i]);
      }
      i := i + 1;
    }
    assert pkgs[..|pkgs|] == pkgs;
    var monthly := if Discounted(monthlyPrice, c) then Some(DiscountedEuros(monthlyPrice, c)) else None;
    q := BundleQuote(Some(DiscountedEuros(oneTimePrice, c)), monthly);
  }

  // ---- bundle-card helpers ----

  /** Undiscounted one-time total of a composed bundle, 0 for a consultation bundle. */
  function CardOneTimeTotal(info: BundleData): nat
    requires info.Composed?
  {
    if TierIsConsultation(info.tier) || DevTypeIsConsultation(info.devType) then 0
    else PriceOrZero(TierPrice(info.tier)) + PriceOrZero(DevTypePrice(info.devType)) + OneTimeSum(info.packages)
  }

  /** `calculatePackagePrice` */
  method CalculatePackagePrice(info: BundleData) returns (price: nat)
    requires info.Composed?
    ensures price == CardOneTimeTotal(info)
  {
    if TierIsConsultation(info.tier) || DevTypeIsConsultation(info.devType) {
      return 0;
    }
    price := 0;
    if TierPrice(info.tier).Some? {
      price := price + TierPrice(info.tier).value;
    }
    if DevTypePrice(info.devType).Some? {
      price := price + DevTypePrice(info.devType).value;
    }
    var base := price;
    var i := 0;
    while i < |info.packages|
      invariant 0 <= i <= |info.packages|
      invariant price == base + OneTimeSum(info.packages[..i])
    {
      assert info.packages[..i + 1][..i] == info.packages[..i];
      if !PackageIsMonthly(info.packages[i]) {
        price := price + PackagePrice(info.packages[i]);
      }
      i := i + 1;
    }
    assert info.packages[..|info.packages|] == info.packages;
  }

  /** `calculateMonthlyPrice` */
  method CalculateMonthlyPrice(info: BundleData) returns (monthlyPrice: nat)
    requires info.Composed?
    ensures monthlyPrice == MonthlySum(info.packages)
  {
    monthlyPrice := 0;
    var i := 0;
    while i < |info.packages|
      invariant 0 <= i <= |info.packages|
      invariant monthlyPrice == MonthlySum(info.packages[..i])
    {
      assert info.packages[..i + 1][..i] == info.packages[..i];
      if PackageIsMonthly(info.packages[i]) {
        monthlyPrice := monthlyPrice + PackagePrice(info.packages[i]);
      }
      i := i + 1;
    }
    assert info.packages[..|info.packages|] == info.packages;
  }

  /** `hasMonthlyFee`: some included package is billed monthly. */
  predicate HasMonthlyFee(info: BundleData)
    requires info.Composed?
  {
    exists i :: 0 <= i < |info.packages| && PackageIsMonthly(info.packages[i])
  }

  /** The card's price in cents: companies see the undiscounted sum as it is,
      other clients `Math.round(sum * (1 - discount))` whole euros. */
  function CardPrice(cents: nat, c: ClientType): nat {
    if c == Company then cents else DiscountedEuros(cents, c) * 100
  }

  // ---- properties ----

  /** The sums depend only on how many times each package occurs. */
  lemma {:induction false} SumsByCount(pkgs: seq<Package>)
    ensures OneTimeSum(pkgs) ==
            multiset(pkgs)[Integrations] * 9900 + multiset(pkgs)[ContactForms] * 4900 + multiset(pkgs)[Setup] * 9900
    ensures MonthlySum(pkgs) == multiset(pkgs)[Maintenance] * 999
  {
    if pkgs != [] {
      var init := pkgs[..|pkgs| - 1];
      assert pkgs == init + [pkgs[|pkgs| - 1]];
      assert multiset(pkgs) == multiset(init) + multiset{pkgs[|pkgs| - 1]};
      SumsByCount(init);
    }
  }

  /** The order in which packages were chosen does not change any price. */
  lemma PackageOrderIrrelevant(c: ClientType, tier: Option<Tier>, dev: Option<DevType>, a: seq<Package>, b: seq<Package>)
    requires multiset(a) == multiset(b)
    ensures CalculatorQuote(c, tier, dev, a) == CalculatorQuote(c, tier, dev, b)
  {
    SumsByCount(a);
    SumsByCount(b);
  }

  /** A monthly fee is shown exactly when a monthly package is included. */
  lemma {:induction false} HasMonthlyFeeIffMonthlySum(pkgs: seq<Package>)
    ensures (exists i :: 0 <= i < |pkgs| && PackageIsMonthly(pkgs[i])) <==> MonthlySum(pkgs) > 0
  {
    if pkgs != [] {
      var init := pkgs[..|pkgs| - 1];
      HasMonthlyFeeIffMonthlySum(init);
      if exists i :: 0 <= i < |init| && PackageIsMonthly(init[i]) {
        var i :| 0 <= i < |init| && PackageIsMonthly(init[i]);
        assert pkgs[i] == init[i];
      }
      if exists i :: 0 <= i < |pkgs| && PackageIsMonthly(pkgs[i]) {
        var i :| 0 <= i < |pkgs| && PackageIsMonthly(pkgs[i]);
        if i < |init| {
          assert init[i] == pkgs[i];
        }
      }
    }
  }

  function MonthlyOrZero(q: Quote): nat {
    PriceOrZero(q.monthly)
  }

  lemma DiscountedEurosMonotone(x: nat, y: nat, c: ClientType)
    requires x <= y
    ensures DiscountedEuros(x, c) <= DiscountedEuros(y, c)
  {
    MulMonotone(100 - DiscountPercent(c), x, y);
    RoundHalfUpMonotone(x * (100 - DiscountPercent(c)), y * (100 - DiscountPercent(c)), 10000);
  }

  /** Adding a package never lowers the one-time price or the monthly fee. */
  lemma AddingPackageNeverLowersPrice(c: ClientType, tier: Option<Tier>, dev: Option<DevType>,
                                      pkgs: seq<Package>, p: Package)
    ensures var before, after := CalculatorQuote(c, tier, dev, pkgs), CalculatorQuote(c, tier, dev, pkgs + [p]);
      && before.needsConsultation == after.needsConsultation
      && before.oneTime.Some? == after.oneTime.Some?
      && (before.oneTime.Some? ==> before.oneTime.value <= after.oneTime.value)
      && MonthlyOrZero(before) <= MonthlyOrZero(after)
  {
    var ext := pkgs + [p];
    assert ext[..|ext| - 1] == pkgs;
    if tier.Some? && dev.Some? {
      var base := PriceOrZero(TierPrice(tier.value)) + PriceOrZero(DevTypePrice(dev.value));
      DiscountedEurosMonotone(base + OneTimeSum(pkgs), base + OneTimeSum(ext), c);
      DiscountedEurosMonotone(MonthlySum(pkgs), MonthlySum(ext), c);
    }
  }

  /** No tier: nothing to show and no consultation. */
  lemma NoTierNoPrice(c: ClientType, dev: Option<DevType>, pkgs: seq<Package>)
    ensures CalculatorQuote(c, None, dev, pkgs) == Quote(None, None, false)
  {
  }

  /** A consultation tier or technology hides both prices, whatever the packages. */
  lemma ConsultationShortCircuit(c: ClientType, tier: Tier, dev: Option<DevType>, pkgs: seq<Package>)
    requires tier == CustomMade || (dev.Some? && DevTypeIsConsultation(dev.value))
    ensures CalculatorQuote(c, Some(tier), dev, pkgs) == Quote(None, None, true)
  {
  }

  /** The calculator asks for a consultation exactly when a tier is chosen and
      it, or the chosen technology, is a consultation item; it shows a price
      exactly when a tier and a technology are chosen and neither is one. */
  lemma QuoteCases(c: ClientType, tier: Option<Tier>, dev: Option<DevType>, pkgs: seq<Package>)
    ensures var q := CalculatorQuote(c, tier, dev, pkgs);
      && (q.needsConsultation <==>
           tier.Some? && (TierIsConsultation(tier.value) || (dev.Some? && DevTypeIsConsultation(dev.value))))
      && (q.oneTime.Some? <==>
           tier.Some? && dev.Some? && !TierIsConsultation(tier.value) && !DevTypeIsConsultation(dev.value))
      && (q.monthly.Some? ==> q.oneTime.Some?)
  {
  }

  /** Companies pay whole-euro totals exactly. */
  lemma CompanyPaysFullPrice(euros: nat)
    ensures DiscountedEuros(100 * euros, Company) == euros
  {
  }

  lemma DiscountExamples()
    ensures DiscountedEuros(100000, Student) == 750
    ensures DiscountedEuros(100000, Nonprofit) == 500
  {
  }

  /** Starter + Frontend Full + Setup + Maintenance. */
  lemma StarterFrontendExample()
    ensures CalculatorQuote(Company, Some(Starter), Some(FrontendFull), [Setup, Maintenance])
            == Quote(Some(597), Some(10), false)
    ensures CalculatorQuote(Nonprofit, Some(Starter), Some(FrontendFull), [Setup, Maintenance])
            == Quote(Some(299), Some(5), false)
    ensures CalculatorQuote(Student, Some(Starter), Some(FrontendFull), [Setup, Maintenance])
            == Quote(Some(448), Some(7), false)
  {
    SumsByCount([Setup, Maintenance]);
  }

  /** The discount is taken from the total: rounding each line would give 300
      instead of 299 for the non-profit example. */
  lemma DiscountAppliedToTotalNotPerLine()
    ensures DiscountedEuros(24900 + 24900 + 9900, Nonprofit) == 299
    ensures DiscountedEuros(24900, Nonprofit) + DiscountedEuros(24900, Nonprofit) + DiscountedEuros(9900, Nonprofit) == 300
  {
  }

  /** A composed bundle costs what the calculator charges for the same selection. */
  lemma BundleAgreesWithCalculator(b: Bundle, c: ClientType)
    requires BundleInfo(b).Composed?
    ensures var info := BundleInfo(b);
      var q := CalculatorQuote(c, Some(info.tier), Some(info.devType), info.packages);
      BundleQuoteOf(Some(b), c) == BundleQuote(q.oneTime, q.monthly)
  {
  }

  /** The MVP bundle is a flat 499 euros with the client's discount. */
  lemma MvpBundlePrices()
    ensures BundleQuoteOf(Some(Mvp), Company) == BundleQuote(Some(499), None)
    ensures BundleQuoteOf(Some(Mvp), Student) == BundleQuote(Some(374), None)
    ensures BundleQuoteOf(Some(Mvp), Nonprofit) == BundleQuote(Some(250), None)
  {
  }

  /** The premium bundle is priced in consultation; no selection shows no price. */
  lemma UnpricedBundles(c: ClientType)
    ensures BundleQuoteOf(Some(Enterprise), c) == BundleQuote(None, None)
    ensures BundleQuoteOf(None, c) == BundleQuote(None, None)
  {
  }

  /** One step of the package sums: appending a package adds its price to
      the one-time or the monthly sum. */
  lemma SumsSnoc(pkgs: seq<Package>, p: Package)
    ensures OneTimeSum(pkgs + [p]) == OneTimeSum(pkgs) + (if PackageIsMonthly(p) then 0 else PackagePrice(p))
    ensures MonthlySum(pkgs + [p]) == MonthlySum(pkgs) + (if PackageIsMonthly(p) then PackagePrice(p) else 0)
  {
    assert (pkgs + [p])[..|pkgs|] == pkgs;
  }

  /** The add-on sums of the two composed, priced bundles. */
  lemma BundleSums()
    ensures OneTimeSum(BundleInfo(Basic).packages) == 14800 && MonthlySum(BundleInfo(Basic).packages) == 999
    ensures OneTimeSum(BundleInfo(Business).packages) == 24700 && MonthlySum(BundleInfo(Business).packages) == 999
  {
    SumsSnoc([], ContactForms);
    assert [] + [ContactForms] == [ContactForms];
    SumsSnoc([ContactForms], Setup);
    SumsSnoc([ContactForms, Setup], Maintenance);
    assert BundleInfo(Basic).packages == [ContactForms, Setup] + [Maintenance];
    SumsSnoc([ContactForms], Integrations);
    SumsSnoc([ContactForms, Integrations], Setup);
    SumsSnoc([ContactForms, Integrations, Setup], Maintenance);
    assert BundleInfo(Business).packages == [ContactForms, Integrations, Setup] + [Maintenance];
  }

  lemma BasicBundlePrice()
    ensures BundleQuoteOf(Some(Basic), Company) == BundleQuote(Some(646), Some(10))
  {
    BundleSums();
    assert DiscountedEuros(64600, Company) == 646;
    assert DiscountedEuros(999, Company) == 10;
  }

  lemma BusinessBundlePrice()
    ensures BundleQuoteOf(Some(Business), Company) == BundleQuote(Some(1495), Some(10))
  {
    BundleSums();
    assert DiscountedEuros(149500, Company) == 1495;
    assert DiscountedEuros(999, Company) == 10;
  }

  /** The bundle cards round like the bundle effect for discounted clients,
      but show a company the monthly fee unrounded: 9.99 on the card where
      the order summary says 10. */
  lemma CardMonthlyForCompanyIsUnrounded()
    ensures CardPrice(MonthlySum(BundleInfo(Basic).packages), Company) == 999
    ensures BundleQuoteOf(Some(Basic), Company).monthly == Some(10)
    ensures CardPrice(MonthlySum(BundleInfo(Basic).packages), Nonprofit)
            == 100 * BundleQuoteOf(Some(Basic), Nonprofit).monthly.value
  {
    BasicBundlePrice();
    BundleSums();
  }

  /** For discounted clients the card's one-time figure is the effect's price. */
  lemma CardOneTimeAgreesWithEffect(b: Bundle, c: ClientType)
    requires BundleInfo(b).Composed? && BundleQuoteOf(Some(b), c).price.Some? && c != Company
    ensures CardPrice(CardOneTimeTotal(BundleInfo(b)), c) == 100 * BundleQuoteOf(Some(b), c).price.value
  {
  }

  /** For companies the priced bundles' cards show exactly the effect's price. */
  lemma CompanyCardsAgreeWithEffect()
    ensures CardPrice(CardOneTimeTotal(BundleInfo(Basic)), Company) == 100 * BundleQuoteOf(Some(Basic), Company).price.value
    ensures CardPrice(CardOneTimeTotal(BundleInfo(Business)), Company) == 100 * BundleQuoteOf(Some(Business), Company).price.value
  {
    BasicBundlePrice();
    BusinessBundlePrice();
    BundleSums();
  }
}
