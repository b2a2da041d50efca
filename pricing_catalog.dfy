/** The static price list of the pricing page: service tiers, technology
    approaches ("dev types"), add-on packages, the predefined bundles and the
    client-type discounts, with the two compatibility relations between them.
    Amounts are in euro cents, so that the 9.99 maintenance fee is exact. */
module PricingCatalog {
  import opened Optional

  datatype ClientType = Company | Student | Nonprofit
  datatype Tier = Starter | Professional | CustomMade
  datatype DevType = IDontKnow | FrontendFull | WpCmsHeadless | WpCmsFull | InConsultation
  datatype Package = Integrations | ContactForms | Setup | Maintenance
  datatype Bundle = Basic | Business | Enterprise | Mvp

  /** Declaration order of each table (`Object.keys` / `Object.entries` order). */
  const AllClientTypes: seq<ClientType> := [Company, Student, Nonprofit]
  const AllTiers: seq<Tier> := [Starter, Professional, CustomMade]
  const AllDevTypes: seq<DevType> := [IDontKnow, FrontendFull, WpCmsHeadless, WpCmsFull, InConsultation]
  const AllPackages: seq<Package> := [Integrations, ContactForms, Setup, Maintenance]
  const AllBundles: seq<Bundle> := [Basic, Business, Enterprise, Mvp]

  // ---- tiers ----

  function TierName(t: Tier): string {
    match t
    case Starter => "Starter"
    case Professional => "Professional"
    case CustomMade => "Custom-made"
  }

  /** Base price in cents; None is the `price: null` of a consultation tier. */
  function TierPrice(t: Tier): Option<nat> {
    match t
    case Starter => Some(24900)
    case Professional => Some(49900)
    case CustomMade => None
  }

  predicate TierIsConsultation(t: Tier) {
    t == CustomMade
  }

  function TierInclusions(t: Tier): seq<string> {
    match t
    case Starter => ["Unique design", "Mobile-friendly", "1 design iteration", "Up to 5 pages", "SEO Setup"]
    case Professional =>
      ["Everything in starter +", "Pre-defined themes", "5 design iterations", "Unlimited pages",
       "Advanced SEO optimization", "Performance optimized", "Including texts & images"]
    case CustomMade =>
      ["Everything in professional +", "Unlimited design iterations", "Advanced database integrations",
       "Custom API development", "Third-party service integrations", "AI integrations",
       "User authentication system"]
  }

  // ---- technology approaches ----

  function DevTypeName(d: DevType): string {
    match d
    case IDontKnow => "I don't know"
    case FrontendFull => "Frontend Full"
    case WpCmsHeadless => "WP CMS (headless) + flexible frontend"
    case WpCmsFull => "WP CMS Full"
    case InConsultation => "In consultation"
  }

  function DevTypePrice(d: DevType): Option<nat> {
    match d
    case IDontKnow => None
    case FrontendFull => Some(24900)
    case WpCmsHeadless => Some(49900)
    case WpCmsFull => Some(74900)
    case InConsultation => None
  }

  predicate DevTypeIsConsultation(d: DevType) {
    d == IDontKnow || d == InConsultation
  }

  function CompatibleTiers(d: DevType): seq<Tier> {
    match d
    case IDontKnow => [Starter, Professional, CustomMade]
    case FrontendFull => [Starter, Professional, CustomMade]
    case WpCmsHeadless => [Starter, Professional]
    case WpCmsFull => [Starter, Professional]
    case InConsultation => [CustomMade]
  }

  // ---- add-on packages ----

  function PackageName(p: Package): string {
    match p
    case Integrations => "Integrations (WP Plugins)"
    case ContactForms => "Contact Forms"
    case Setup => "Setup"
    case Maintenance => "Maintenance"
  }

  function PackagePrice(p: Package): nat {
    match p
    case Integrations => 9900
    case ContactForms => 4900
    case Setup => 9900
    case Maintenance => 999
  }

  predicate PackageIsMonthly(p: Package) {
    p == Maintenance
  }

  function PackageDescription(p: Package): Option<string> {
    match p
    case Integrations => None
    case ContactForms => None
    case Setup => Some("Domain, hosting & email (one-time fee)")
    case Maintenance => Some("Domain, hosting, email and updates (\U{20AC}9.99/month)")
  }

  function CompatibleDevTypes(p: Package): seq<DevType> {
    match p
    case Integrations => [WpCmsHeadless, WpCmsFull]
    case ContactForms => [WpCmsHeadless, WpCmsFull, FrontendFull, InConsultation]
    case Setup => [WpCmsHeadless, WpCmsFull, FrontendFull]
    case Maintenance => [WpCmsHeadless, WpCmsFull, FrontendFull]
  }

  // ---- predefined bundles ----

  /** The two shapes a bundle entry has: a tier, a technology and included
      packages, or a flat price with a redirect to a dedicated page. */
  datatype BundleData =
    | Composed(name: string, description: string, tier: Tier, devType: DevType,
               additionalDevTypes: seq<DevType>, packages: seq<Package>)
    | FlatPrice(name: string, description: string, price: nat, redirectTo: string)

  function BundleInfo(b: Bundle): BundleData {
    match b
    case Basic =>
      Composed("Simple Bundle", "Simple website with basic functionality", Starter, FrontendFull,
               [], [ContactForms, Setup, Maintenance])
    case Business =>
      Composed("Plus Bundle", "Complete WordPress solution for businesses", Professional, WpCmsFull,
               [WpCmsHeadless], [ContactForms, Integrations, Setup, Maintenance])
    case Enterprise =>
      Composed("Premium Bundle", "Advanced solution with custom frontend", CustomMade, InConsultation, [], [])
    case Mvp =>
      FlatPrice("MVP Bundle", "Rapid development for your minimum viable product", 49900, "/mvp")
  }

  /** Bundle keys as the page sends them (`package: selectedPredefinedPackage`). */
  function BundleKey(b: Bundle): (k: string)
    ensures k != ""
  {
    match b
    case Basic => "basic"
    case Business => "business"
    case Enterprise => "enterprise"
    case Mvp => "mvp"
  }

  // ---- discounts ----

  /** Discount in percent: `DATA.discounts` holds 0.25 for students and 0.5
      for non-profits; companies have no entry and pay the full price. */
  function DiscountPercent(c: ClientType): (r: nat)
    ensures r < 100
  {
    match c
    case Company => 0
    case Student => 25
    case Nonprofit => 50
  }

  function ClientTypeKey(c: ClientType): string {
    match c
    case Company => "company"
    case Student => "student"
    case Nonprofit => "nonprofit"
  }

  function TierKey(t: Tier): string {
    match t
    case Starter => "starter"
    case Professional => "professional"
    case CustomMade => "customMade"
  }

  function DevTypeKey(d: DevType): string {
    match d
    case IDontKnow => "iDontKnow"
    case FrontendFull => "frontendFull"
    case WpCmsHeadless => "wpCmsHeadless"
    case WpCmsFull => "wpCmsFull"
    case InConsultation => "inConsultation"
  }

  function PackageKey(p: Package): string {
    match p
    case Integrations => "integrations"
    case ContactForms => "contactForms"
    case Setup => "setup"
    case Maintenance => "maintenance"
  }

  // ---- compatibility ----

  /** `isDevTypeCompatible`: false while no tier is chosen. */
  predicate IsDevTypeCompatible(selectedTier: Option<Tier>, d: DevType) {
    selectedTier.Some? && selectedTier.value in CompatibleTiers(d)
  }

  /** `isPackageCompatible`: false while no technology is chosen. */
  predicate IsPackageCompatible(selectedDevType: Option<DevType>, p: Package) {
    selectedDevType.Some? && selectedDevType.value in CompatibleDevTypes(p)
  }

  /** Catalog invariants: a tier or technology has a price exactly when it is
      not a consultation item, every technology fits at least one tier, and
      the undecided approach fits every tier and forces a consultation. */
  lemma CatalogWellFormed()
    ensures forall t: Tier :: TierPrice(t).Some? <==> !TierIsConsultation(t)
    ensures forall d: DevType :: DevTypePrice(d).Some? <==> !DevTypeIsConsultation(d)
    ensures forall d: DevType :: |CompatibleTiers(d)| > 0
    ensures forall t: Tier :: t in CompatibleTiers(IDontKnow) && DevTypeIsConsultation(IDontKnow)
    ensures forall p: Package :: PackagePrice(p) > 0
  {
    forall t: Tier ensures t in CompatibleTiers(IDontKnow) {
      assert CompatibleTiers(IDontKnow) == [Starter, Professional, CustomMade];
      match t
      case Starter => assert CompatibleTiers(IDontKnow)[0] == t;
      case Professional => assert CompatibleTiers(IDontKnow)[1] == t;
      case CustomMade => assert CompatibleTiers(IDontKnow)[2] == t;
    }
  }

  /** The compatibility tables as rules: custom-made takes neither
      WordPress approach and only custom-made takes the consultation
      approach; the undecided approach takes no package, the consultation
      approach only contact forms, and only the WordPress approaches take
      integrations. Nothing is compatible before its parent is chosen. */
  lemma CompatibilityRules(t: Tier, d: DevType, p: Package)
    ensures !IsDevTypeCompatible(None, d) && !IsPackageCompatible(None, p)
    ensures IsDevTypeCompatible(Some(t), d) <==>
            (t == CustomMade ==> d != WpCmsHeadless && d != WpCmsFull) && (t != CustomMade ==> d != InConsultation)
    ensures IsPackageCompatible(Some(d), p) <==>
            && d != IDontKnow
            && (p == Integrations ==> d == WpCmsHeadless || d == WpCmsFull)
            && (d == InConsultation ==> p == ContactForms)
  {
  }

  /** The WordPress approaches are not offered with the custom-made tier. */
  lemma CustomMadeExcludesWordPress()
    ensures !IsDevTypeCompatible(Some(CustomMade), WpCmsHeadless)
    ensures !IsDevTypeCompatible(Some(CustomMade), WpCmsFull)
    ensures forall d :: IsDevTypeCompatible(Some(Starter), d) <==> d != InConsultation
  {
  }

}
