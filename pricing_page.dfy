/** The state of the pricing page and its event handlers: the predefined
    bundles tab, the four-step calculator (client type, tier, technology,
    packages), the order dialog and its submission.

    A React handler only sets state; after each render the page's effects
    pick defaults and recompute the prices. `Handle` is what one handler
    sets, `AfterEffects` is what the effects then do, and the class `Page`
    keeps the state in fields that its methods update in the same way. */
module PricingPage {
  import opened Optional
  import opened PricingCatalog
  import opened PriceEngine
  import Js
  import Relay
  import FormSubmission

  datatype Tab = PredefinedPackages | Calculate

  /** Every state variable of the page that the model follows. */
  datatype PageState = PageState(
    activeTab: Tab, showOrderDialog: bool,
    selectedBundle: Option<Bundle>, bundleClientType: ClientType, bundleQuote: BundleQuote,
    step: nat, clientType: ClientType, selectedTier: Option<Tier>, selectedDevType: Option<DevType>,
    selectedPackages: seq<Package>, quote: Quote, errors: seq<string>, isSubmitting: bool)

  /** The values of the order form's inputs. */
  datatype OrderForm = OrderForm(firstName: string, lastName: string, email: string, phone: string, message: string)

  /** The stepper circles are numbered 1 to 4. */
  type StepNumber = n: int | 1 <= n <= 4 witness 1

  /** The user actions the page handles. The slide handlers of the mobile
      carousels for client types and tiers act as a click on the card at
      the slide's index; the one for technologies as `ChooseDevType`. */
  datatype Event =
    | SetActiveTab(tab: Tab)
    | SelectBundleClientType(bundleClientType: ClientType)
    | SelectBundle(bundle: Bundle)
    | OrderBundle(orderedBundle: Bundle)
    | SelectBundleBySlide(index: nat)
    | MobileContinue
    | SelectClientType(clientType: ClientType)
    | SelectTier(tier: Tier)
    | ChooseDevType(devType: DevType)
    | ClickPackage(package: Package)
    | Continue
    | Back
    | StepperClick(target: StepNumber)
    | ConsultationContinue
    | RequestConsultation
    | CloseOrderDialog
    | SubmitOrder(form: OrderForm)
    | SubmitFinished(ok: bool)

  const TierError: string := "Please select a tier"
  const DevTypeError: string := "Please select a technology approach"
  const TierFirstError: string := "Please select a tier first"
  const DevTypeFirstError: string := "Please select a technology approach first"

  // ---- sequences of packages and bundles ----

  /** `pkgs.filter((q) => q !== p)` */
  function Without(pkgs: seq<Package>, p: Package): (r: seq<Package>)
    ensures |r| <= |pkgs|
  {
    if pkgs == [] then []
    else if pkgs[0] == p then Without(pkgs[1..], p)
    else [pkgs[0]] + Without(pkgs[1..], p)
  }

  /** `togglePackage`: drop every occurrence of a selected package, or
      append an unselected one. */
  function Toggled(pkgs: seq<Package>, p: Package): seq<Package> {
    if p in pkgs then Without(pkgs, p) else pkgs + [p]
  }

  /** The bundles shown for a client type: MVP only for companies. */
  function VisibleFilter(bundles: seq<Bundle>, c: ClientType): (r: seq<Bundle>)
    ensures |r| <= |bundles|
  {
    if bundles == [] then []
    else if bundles[0] == Mvp && c != Company then VisibleFilter(bundles[1..], c)
    else [bundles[0]] + VisibleFilter(bundles[1..], c)
  }

  /** The stable sort that puts MVP last: the other bundles in order, then MVP. */
  function MvpLast(bundles: seq<Bundle>): seq<Bundle> {
    NonMvp(bundles) + OnlyMvp(bundles)
  }

  function NonMvp(bundles: seq<Bundle>): seq<Bundle> {
    if bundles == [] then []
    else if bundles[0] == Mvp then NonMvp(bundles[1..])
    else [bundles[0]] + NonMvp(bundles[1..])
  }

  function OnlyMvp(bundles: seq<Bundle>): seq<Bundle> {
    if bundles == [] then []
    else if bundles[0] == Mvp then [bundles[0]] + OnlyMvp(bundles[1..])
    else OnlyMvp(bundles[1..])
  }

  function VisibleBundles(c: ClientType): seq<Bundle> {
    MvpLast(VisibleFilter(AllBundles, c))
  }

  /** `Object.entries(DATA.devTypes).find(...)`: the first technology, in
      declaration order, that fits the tier. */
  function FirstCompatible(devTypes: seq<DevType>, t: Tier): (r: Option<DevType>)
    ensures r.Some? ==> r.value in devTypes && t in CompatibleTiers(r.value)
    ensures r.None? ==> forall d :: d in devTypes ==> t !in CompatibleTiers(d)
    ensures r.Some? ==> exists i :: 0 <= i < |devTypes| && devTypes[i] == r.value &&
                                   forall j :: 0 <= j < i ==> t !in CompatibleTiers(devTypes[j])
  {
    if devTypes == [] then None
    else if t in CompatibleTiers(devTypes[0]) then Some(devTypes[0])
    else FirstCompatible(devTypes[1..], t)
  }

  // ---- the page ----

  /** The state on the first render, before any effect has run. */
  function Mounted(): PageState {
    PageState(PredefinedPackages, false, None, Company, BundleQuote(None, None),
              1, Company, None, None, [], Quote(None, None, false), [], false)
  }

  function Initial(): PageState {
    AfterEffects(Mounted())
  }

  /** The effects, in the order the page declares them: pick the first
      visible bundle when none is selected, price the bundle, price the
      calculator, select the first tier on reaching step 2 and the first
      compatible technology on reaching step 3. Each effect re-runs when
      what it reads changes, so the page settles where none has work left:
      the defaults are chosen, then the prices computed from them. The
      calculator effect sets `totalPrice`, `monthlyPrice` and
      `needsConsultation` together; `quote` holds the three, and
      `bundleQuote` the two bundle prices. */
  function AfterEffects(s: PageState): PageState {
    Priced(Defaults(s))
  }

  /** The three effects that choose a default. */
  function Defaults(s: PageState): PageState {
    var s1 := if s.selectedBundle.None? then s.(selectedBundle := Some(Basic)) else s;
    var s2 := if s1.step == 2 && s1.selectedTier.None? then s1.(selectedTier := Some(AllTiers[0])) else s1;
    if s2.step == 3 && s2.selectedTier.Some? && s2.selectedDevType.None? then
      s2.(selectedDevType := FirstCompatible(AllDevTypes, s2.selectedTier.value))
    else s2
  }

  /** The two price effects. */
  function Priced(s: PageState): PageState {
    s.(bundleQuote := BundleQuoteOf(s.selectedBundle, s.bundleClientType),
       quote := CalculatorQuote(s.clientType, s.selectedTier, s.selectedDevType, s.selectedPackages))
  }

  /** A state in which no effect has anything left to do. */
  predicate Settled(s: PageState) {
    && s.selectedBundle.Some?
    && !(s.step == 2 && s.selectedTier.None?)
    && !(s.step == 3 && s.selectedTier.Some? && s.selectedDevType.None?)
    && s.bundleQuote == BundleQuoteOf(s.selectedBundle, s.bundleClientType)
    && s.quote == CalculatorQuote(s.clientType, s.selectedTier, s.selectedDevType, s.selectedPackages)
  }

  /** What the wizard keeps true: the step is 1 to 4, a technology is only
      chosen once a tier is, and from step 3 on both are chosen. */
  predicate Inv(s: PageState) {
    && 1 <= s.step <= 4
    && (s.selectedDevType.Some? ==> s.selectedTier.Some?)
    && (s.step >= 3 ==> s.selectedTier.Some? && s.selectedDevType.Some?)
  }

  /** `handleContinue`. The client-type check of step 1 never fires: the
      client type always holds one of the three values. */
  function ContinueFrom(s: PageState): PageState {
    var errs :=
      (if s.step == 2 && s.selectedTier.None? then [TierError] else []) +
      (if s.step == 3 && s.selectedDevType.None? && s.selectedTier != Some(CustomMade) then [DevTypeError] else []);
    if |errs| > 0 then s.(errors := errs)
    else
      var s1 := s.(errors := [],
                   selectedDevType := if s.step == 2 && s.selectedTier == Some(CustomMade) then Some(InConsultation)
                                      else s.selectedDevType);
      if s.step < 4 then s1.(step := s.step + 1) else s1.(showOrderDialog := true)
  }

  /** The stepper: step 1 is always reachable, step 2 needs a client type
      (always present), step 3 a tier and step 4 a technology. */
  function StepperFrom(s: PageState, k: StepNumber): PageState {
    if k == 1 || k == 2 then s.(step := k)
    else if k == 3 then (if s.selectedTier.Some? then s.(step := 3) else s.(errors := [TierFirstError]))
    else (if s.selectedDevType.Some? then s.(step := 4) else s.(errors := [DevTypeFirstError]))
  }

  predicate RequiredFilled(f: OrderForm) {
    f.firstName != "" && f.lastName != "" && f.email != ""
  }

  /** The dialog's submit button is disabled while a submission runs; an
      enabled click sends only with the required fields filled in. */
  predicate OrderSendable(s: PageState, f: OrderForm) {
    !s.isSubmitting && RequiredFilled(f)
  }

  /** What one handler sets. */
  function Handle(s: PageState, e: Event): PageState {
    match e
    case SetActiveTab(t) => s.(activeTab := t)
    case SelectBundleClientType(c) => s.(bundleClientType := c)
    case SelectBundle(b) => s.(selectedBundle := Some(b))
    case OrderBundle(b) => s.(selectedBundle := Some(b), showOrderDialog := true)
    case SelectBundleBySlide(i) =>
      var visible := VisibleBundles(s.bundleClientType);
      if i < |visible| then s.(selectedBundle := Some(visible[i])) else s
    case MobileContinue => if s.selectedBundle == Some(Mvp) then s else s.(showOrderDialog := true)
    case SelectClientType(c) => s.(clientType := c)
    case SelectTier(t) => s.(selectedTier := Some(t))
    case ChooseDevType(d) => if IsDevTypeCompatible(s.selectedTier, d) then s.(selectedDevType := Some(d)) else s
    case ClickPackage(p) =>
      if IsPackageCompatible(s.selectedDevType, p) then s.(selectedPackages := Toggled(s.selectedPackages, p)) else s
    case Continue => ContinueFrom(s)
    case Back => if s.step > 1 then s.(step := s.step - 1) else s
    case StepperClick(k) => StepperFrom(s, k)
    case ConsultationContinue => s.(step := 4)
    case RequestConsultation => s.(showOrderDialog := true)
    case CloseOrderDialog => s.(showOrderDialog := false)
    case SubmitOrder(f) => if OrderSendable(s, f) then s.(isSubmitting := true) else s
    case SubmitFinished(ok) => s.(isSubmitting := false, showOrderDialog := if ok then false else s.showOrderDialog)
  }

  /** A handler followed by the effects it triggers. */
  function Apply(s: PageState, e: Event): PageState {
    AfterEffects(Handle(s, e))
  }

  /** The events whose control is on screen only in some states, where
      the model needs to know it: the "continue" of the custom-made
      technology step. */
  predicate Enabled(s: PageState, e: Event) {
    e.ConsultationContinue? ==> s.step == 3 && s.selectedTier == Some(CustomMade)
  }

  /** The MVP bundle is ordered on its own page, the others in the order dialog. */
  function MobileRedirect(s: PageState): Option<string> {
    if s.selectedBundle == Some(Mvp) then Some(BundleInfo(Mvp).redirectTo) else None
  }

  // ---- the order request ----

  /** A price as the page serialises it: a number, or `null`. */
  function PriceValue(p: Option<nat>): Js.Value {
    if p.Some? then Js.Num(p.value) else Js.Null
  }

  function KeyOr<T>(o: Option<T>, key: T -> string): Js.Value {
    if o.Some? then Js.Str(key(o.value)) else Js.Null
  }

  function PackageKeys(pkgs: seq<Package>): (keys: seq<string>)
    ensures |keys| == |pkgs|
    ensures forall i :: 0 <= i < |pkgs| ==> keys[i] == PackageKey(pkgs[i])
  {
    if pkgs == [] then [] else [PackageKey(pkgs[0])] + PackageKeys(pkgs[1..])
  }

  /** `packageDetails`: the selected bundle on the bundles tab, the
      calculator's selections otherwise. */
  function OrderDetails(s: PageState): Relay.PackageDetails {
    if s.activeTab == PredefinedPackages then
      Relay.PackageDetails(KeyOr(s.selectedBundle, BundleKey), Js.Str(ClientTypeKey(s.bundleClientType)),
                           Js.Undefined, Js.Undefined, None, PriceValue(s.bundleQuote.price), PriceValue(s.bundleQuote.monthly))
    else
      Relay.PackageDetails(Js.Undefined, Js.Str(ClientTypeKey(s.clientType)),
                           KeyOr(s.selectedTier, TierKey), KeyOr(s.selectedDevType, DevTypeKey),
                           Some(PackageKeys(s.selectedPackages)), PriceValue(s.quote.oneTime), PriceValue(s.quote.monthly))
  }

  /** `formData` of the `pricing` request the dialog posts. */
  function OrderPayload(s: PageState, f: OrderForm, language: string): Relay.FormData {
    Relay.FormData(Js.Str(f.firstName), Js.Str(f.lastName), Js.Str(f.email), Js.Str(f.phone), Js.Str(f.message),
                   Relay.Present(OrderDetails(s)), Js.Undefined, Js.Undefined, Js.Str(language))
  }

  /** The page's state variables, updated in place by its handlers. */
  class Page {
    var activeTab: Tab
    var showOrderDialog: bool
    var selectedBundle: Option<Bundle>
    var bundleClientType: ClientType
    var bundleQuote: BundleQuote
    var step: nat
    var clientType: ClientType
    var selectedTier: Option<Tier>
    var selectedDevType: Option<DevType>
    var selectedPackages: seq<Package>
    var quote: Quote
    var errors: seq<string>
    var isSubmitting: bool

    function State(): PageState
      reads this
    {
      PageState(activeTab, showOrderDialog, selectedBundle, bundleClientType, bundleQuote,
                step, clientType, selectedTier, selectedDevType, selectedPackages, quote, errors, isSubmitting)
    }

    /** The first render followed by the mount effects. */
    constructor()
      ensures State() == Initial()
    {
      activeTab, showOrderDialog := PredefinedPackages, false;
      selectedBundle, bundleClientType, bundleQuote := None, Company, BundleQuote(None, None);
      step, clientType, selectedTier, selectedDevType, selectedPackages := 1, Company, None, None, [];
      quote, errors, isSubmitting := Quote(None, None, false), [], false;
      new;
      RunEffects();
    }

    /** The effects, run until none has work left. */
    method RunEffects()
      modifies this
      ensures State() == AfterEffects(old(State()))
    {
      ChooseDefaults();
      Reprice();
    }

    method ChooseDefaults()
      modifies this
      ensures State() == Defaults(old(State()))
    {
      if selectedBundle.None? {
        selectedBundle := Some(VisibleBundles(bundleClientType)[0]);
        VisibleBundlesStartWithBasic(bundleClientType);
      }
      if step == 2 && selectedTier.None? {
        selectedTier := Some(AllTiers[0]);
      }
      if step == 3 && selectedTier.Some? && selectedDevType.None? {
        selectedDevType := FirstCompatible(AllDevTypes, selectedTier.value);
      }
    }

    method Reprice()
      modifies this
      ensures State() == Priced(old(State()))
    {
      bundleQuote := ComputeBundleQuote(selectedBundle, bundleClientType);
      quote := ComputeCalculatorQuote(clientType, selectedTier, selectedDevType, selectedPackages);
    }

    method SetActiveTab(t: Tab)
      modifies this
      ensures State() == Apply(old(State()), Event.SetActiveTab(t))
    {
      activeTab := t;
      assert State() == Handle(old(State()), Event.SetActiveTab(t));
      RunEffects();
    }

    method SelectBundleClientType(c: ClientType)
      modifies this
      ensures State() == Apply(old(State()), Event.SelectBundleClientType(c))
    {
      bundleClientType := c;
      assert State() == Handle(old(State()), Event.SelectBundleClientType(c));
      RunEffects();
    }

    method SelectBundle(b: Bundle)
      modifies this
      ensures State() == Apply(old(State()), Event.SelectBundle(b))
    {
      selectedBundle := Some(b);
      assert State() == Handle(old(State()), Event.SelectBundle(b));
      RunEffects();
    }

    /** The order button of a bundle card. */
    method OrderBundle(b: Bundle)
      modifies this
      ensures State() == Apply(old(State()), Event.OrderBundle(b))
    {
      selectedBundle := Some(b);
      showOrderDialog := true;
      assert State() == Handle(old(State()), Event.OrderBundle(b));
      RunEffects();
    }

    method SelectBundleBySlide(i: nat)
      modifies this
      ensures State() == Apply(old(State()), Event.SelectBundleBySlide(i))
    {
      var visible := VisibleBundles(bundleClientType);
      if i < |visible| {
        selectedBundle := Some(visible[i]);
      }
      assert State() == Handle(old(State()), Event.SelectBundleBySlide(i));
      RunEffects();
    }

    /** The mobile continue button, which leaves for the MVP page when
        the MVP bundle is selected. */
    method MobileContinue() returns (redirect: Option<string>)
      modifies this
      ensures redirect == MobileRedirect(old(State()))
      ensures State() == Apply(old(State()), Event.MobileContinue)
    {
      if selectedBundle == Some(Mvp) {
        redirect := Some(BundleInfo(Mvp).redirectTo);
      } else {
        redirect := None;
        showOrderDialog := true;
      }
      assert State() == Handle(old(State()), Event.MobileContinue);
      RunEffects();
    }

    method SelectClientType(c: ClientType)
      modifies this
      ensures State() == Apply(old(State()), Event.SelectClientType(c))
    {
      clientType := c;
      assert State() == Handle(old(State()), Event.SelectClientType(c));
      RunEffects();
    }

    method SelectTier(t: Tier)
      modifies this
      ensures State() == Apply(old(State()), Event.SelectTier(t))
    {
      selectedTier := Some(t);
      assert State() == Handle(old(State()), Event.SelectTier(t));
      RunEffects();
    }

    method ChooseDevType(d: DevType)
      modifies this
      ensures State() == Apply(old(State()), Event.ChooseDevType(d))
    {
      if IsDevTypeCompatible(selectedTier, d) {
        selectedDevType := Some(d);
      }
      assert State() == Handle(old(State()), Event.ChooseDevType(d));
      RunEffects();
    }

    method ClickPackage(p: Package)
      modifies this
      ensures State() == Apply(old(State()), Event.ClickPackage(p))
    {
      if IsPackageCompatible(selectedDevType, p) {
        if p in selectedPackages {
          selectedPackages := Without(selectedPackages, p);
        } else {
          selectedPackages := selectedPackages + [p];
        }
      }
      assert State() == Handle(old(State()), Event.ClickPackage(p));
      RunEffects();
    }

    method Continue()
      modifies this
      ensures State() == Apply(old(State()), Event.Continue)
    {
      var newErrors: seq<string> := [];
      if step == 2 && selectedTier.None? {
        newErrors := newErrors + [TierError];
      }
      if step == 3 && selectedDevType.None? && selectedTier != Some(CustomMade) {
        newErrors := newErrors + [DevTypeError];
      }
      if |newErrors| > 0 {
        errors := newErrors;
      } else {
        errors := [];
        if step == 2 && selectedTier == Some(CustomMade) {
          selectedDevType := Some(InConsultation);
        }
        if step < 4 {
          step := step + 1;
        } else {
          showOrderDialog := true;
        }
      }
      assert State() == Handle(old(State()), Event.Continue);
      RunEffects();
    }

    method Back()
      modifies this
      ensures State() == Apply(old(State()), Event.Back)
    {
      if step > 1 {
        step := step - 1;
      }
      assert State() == Handle(old(State()), Event.Back);
      RunEffects();
    }

    method StepperClick(k: StepNumber)
      modifies this
      ensures State() == Apply(old(State()), Event.StepperClick(k))
    {
      if k == 1 || k == 2 {
        step := k;
      } else if k == 3 {
        if selectedTier.Some? { step := 3; } else { errors := [TierFirstError]; }
      } else {
        if selectedDevType.Some? { step := 4; } else { errors := [DevTypeFirstError]; }
      }
      assert State() == Handle(old(State()), Event.StepperClick(k));
      RunEffects();
    }

    /** The continue button of the custom-made technology step. */
    method ConsultationContinue()
      modifies this
      ensures State() == Apply(old(State()), Event.ConsultationContinue)
    {
      step := 4;
      assert State() == Handle(old(State()), Event.ConsultationContinue);
      RunEffects();
    }

    method RequestConsultation()
      modifies this
      ensures State() == Apply(old(State()), Event.RequestConsultation)
    {
      showOrderDialog := true;
      assert State() == Handle(old(State()), Event.RequestConsultation);
      RunEffects();
    }

    method CloseOrderDialog()
      modifies this
      ensures State() == Apply(old(State()), Event.CloseOrderDialog)
    {
      showOrderDialog := false;
      assert State() == Handle(old(State()), Event.CloseOrderDialog);
      RunEffects();
    }

    /** The dialog's submit button up to the request: nothing is sent while
        a submission runs, nor unless first name, last name and email are
        filled in. */
    method SubmitOrder(f: OrderForm, language: string) returns (request: Option<Relay.FormData>)
      modifies this
      ensures request == (if OrderSendable(old(State()), f) then Some(OrderPayload(old(State()), f, language)) else None)
      ensures State() == Apply(old(State()), Event.SubmitOrder(f))
    {
      if isSubmitting || !(f.firstName != "" && f.lastName != "" && f.email != "") {
        request := None;
      } else {
        isSubmitting := true;
        request := Some(OrderPayload(State(), f, language));
      }
      assert State() == Handle(old(State()), Event.SubmitOrder(f));
      RunEffects();
    }

    /** The end of the submission: the dialog closes only on success. */
    method SubmitFinished(ok: bool)
      modifies this
      ensures State() == Apply(old(State()), Event.SubmitFinished(ok))
    {
      if ok {
        showOrderDialog := false;
      }
      isSubmitting := false;
      assert State() == Handle(old(State()), Event.SubmitFinished(ok));
      RunEffects();
    }
  }

  // ---- properties ----

  lemma {:induction false} WithoutRemoves(pkgs: seq<Package>, p: Package)
    ensures p !in Without(pkgs, p)
  {
    if pkgs != [] {
      WithoutRemoves(pkgs[1..], p);
    }
  }

  lemma {:induction false} WithoutAbsent(pkgs: seq<Package>, p: Package)
    requires p !in pkgs
    ensures Without(pkgs, p) == pkgs
  {
    if pkgs != [] {
      WithoutAbsent(pkgs[1..], p);
    }
  }

  lemma {:induction false} WithoutAppend(a: seq<Package>, b: seq<Package>, p: Package)
    ensures Without(a + b, p) == Without(a, p) + Without(b, p)
  {
    if a == [] {
      assert a + b == b;
    } else {
      assert (a + b)[0] == a[0];
      assert (a + b)[1..] == a[1..] + b;
      WithoutAppend(a[1..], b, p);
    }
  }

  lemma {:induction false} WithoutIdempotent(pkgs: seq<Package>, p: Package)
    ensures Without(Without(pkgs, p), p) == Without(pkgs, p)
  {
    WithoutRemoves(pkgs, p);
    WithoutAbsent(Without(pkgs, p), p);
  }

  lemma {:induction false} WithoutKeeps(pkgs: seq<Package>, p: Package, q: Package)
    requires q != p
    ensures q in Without(pkgs, p) <==> q in pkgs
  {
    if pkgs != [] {
      WithoutKeeps(pkgs[1..], p, q);
      assert pkgs == [pkgs[0]] + pkgs[1..];
    }
  }

  /** `togglePackage` flips the membership of exactly one package: the
      others keep their occurrences and their order, and toggling a package
      that was not selected twice restores the selection. */
  lemma ToggledFlips(pkgs: seq<Package>, p: Package)
    ensures p in Toggled(pkgs, p) <==> p !in pkgs
    ensures Without(Toggled(pkgs, p), p) == Without(pkgs, p)
    ensures forall q :: q != p ==> (q in Toggled(pkgs, p) <==> q in pkgs)
    ensures p !in pkgs ==> Toggled(Toggled(pkgs, p), p) == pkgs
  {
    if p in pkgs {
      WithoutRemoves(pkgs, p);
      WithoutIdempotent(pkgs, p);
      forall q | q != p ensures q in Toggled(pkgs, p) <==> q in pkgs {
        WithoutKeeps(pkgs, p, q);
      }
    } else {
      WithoutAppend(pkgs, [p], p);
      WithoutAbsent(pkgs, p);
      assert Without([p], p) == [];
      assert p in pkgs + [p] by { assert (pkgs + [p])[|pkgs|] == p; }
      assert Toggled(pkgs + [p], p) == Without(pkgs + [p], p);
    }
  }

  /** Reading the bundle list: MVP is shown exactly to companies and then
      comes last; the other three are always shown, in declaration order. */
  lemma VisibleBundlesShape(c: ClientType)
    ensures c == Company ==> VisibleBundles(c) == [Basic, Business, Enterprise, Mvp]
    ensures c != Company ==> VisibleBundles(c) == [Basic, Business, Enterprise]
    ensures Mvp in VisibleBundles(c) <==> c == Company
  {
    var v := VisibleFilter(AllBundles, c);
    FilterOfAllBundles(c);
    var others := [Basic, Business, Enterprise];
    assert others[1..] == [Business, Enterprise] && others[2..] == [Enterprise] && others[3..] == [];
    assert NonMvp(others) == others && OnlyMvp(others) == [];
    if c == Company {
      assert v == others + [Mvp];
      assert v[1..] == [Business, Enterprise, Mvp] && v[2..] == [Enterprise, Mvp] && v[3..] == [Mvp];
      assert NonMvp(v) == others;
      assert OnlyMvp(v) == [Mvp];
    }
  }

  /** The filter step of `VisibleBundles`, on the catalog's order. */
  lemma FilterOfAllBundles(c: ClientType)
    ensures VisibleFilter(AllBundles, c) ==
            if c == Company then [Basic, Business, Enterprise, Mvp] else [Basic, Business, Enterprise]
  {
    var all := AllBundles;
    assert all == [Basic, Business, Enterprise, Mvp];
    assert all[1..] == [Business, Enterprise, Mvp];
    assert all[2..] == [Enterprise, Mvp];
    assert all[3..] == [Mvp];
    assert all[4..] == [];
  }

  lemma VisibleBundlesStartWithBasic(c: ClientType)
    ensures |VisibleBundles(c)| > 0 && VisibleBundles(c)[0] == Basic
  {
    VisibleBundlesShape(c);
  }

  /** Reaching step 3 selects "I don't know", the first technology, for
      every tier: it fits all three. */
  lemma FirstCompatibleIsIDontKnow(t: Tier)
    ensures FirstCompatible(AllDevTypes, t) == Some(IDontKnow)
  {
    assert t in CompatibleTiers(IDontKnow);
  }

  /** The effects settle the page, and a settled page is left alone. */
  lemma EffectsSettle(s: PageState)
    ensures Settled(AfterEffects(s))
    ensures Settled(s) ==> AfterEffects(s) == s
  {
    if s.selectedTier.Some? {
      FirstCompatibleIsIDontKnow(s.selectedTier.value);
    }
  }

  lemma InitialSettled()
    ensures Settled(Initial()) && Inv(Initial())
    ensures Initial().selectedBundle == Some(Basic) && Initial().step == 1
  {
    EffectsSettle(Mounted());
  }

  /** `Inv` before the effects have run: on reaching step 3 the
      technology may still be missing. */
  predicate InvBeforeEffects(s: PageState) {
    && 1 <= s.step <= 4
    && (s.selectedDevType.Some? ==> s.selectedTier.Some?)
    && (s.step >= 3 ==> s.selectedTier.Some?)
    && (s.step == 4 ==> s.selectedDevType.Some?)
  }

  lemma HandleKeepsInv(s: PageState, e: Event)
    requires Inv(s) && !(s.step == 2 && s.selectedTier.None?) && Enabled(s, e)
    ensures InvBeforeEffects(Handle(s, e))
  {
  }

  lemma EffectsRestoreInv(h: PageState)
    requires InvBeforeEffects(h)
    ensures Inv(AfterEffects(h))
  {
    var d := Defaults(h);
    if h.step == 3 && h.selectedTier.Some? {
      FirstCompatibleIsIDontKnow(h.selectedTier.value);
    }
    assert Inv(d);
    assert AfterEffects(h) == d.(bundleQuote := AfterEffects(h).bundleQuote, quote := AfterEffects(h).quote);
  }

  /** Every handler keeps the wizard's invariant, and the effects settle
      the page again. */
  lemma ApplyKeepsInv(s: PageState, e: Event)
    requires Inv(s) && Settled(s) && Enabled(s, e)
    ensures Inv(Apply(s, e)) && Settled(Apply(s, e))
  {
    HandleKeepsInv(s, e);
    EffectsRestoreInv(Handle(s, e));
    EffectsSettle(Handle(s, e));
  }

  /** In a page the effects have settled, "continue" never reports an
      error: step 2 always has a tier and step 3 a technology. */
  lemma ContinueNeverBlocked(s: PageState)
    requires Inv(s) && Settled(s)
    ensures Handle(s, Continue).errors == []
  {
  }

  /** `handleContinue`: with a missing tier at step 2, or a missing
      technology at step 3 outside the custom-made tier, only the errors
      change; otherwise the errors are cleared and the page moves one step
      forward, or opens the order dialog at step 4. Continuing from step 2
      with the custom-made tier chooses the consultation technology. */
  lemma ContinueTransitions(s: PageState)
    ensures var r := Handle(s, Continue);
      var blocked := (s.step == 2 && s.selectedTier.None?) ||
                     (s.step == 3 && s.selectedDevType.None? && s.selectedTier != Some(CustomMade));
      && (blocked ==> r == s.(errors := r.errors) && r.errors != [])
      && (!blocked ==> r.errors == [] && r.selectedTier == s.selectedTier && r.selectedPackages == s.selectedPackages)
      && (!blocked && s.step < 4 ==> r.step == s.step + 1 && r.showOrderDialog == s.showOrderDialog)
      && (!blocked && s.step >= 4 ==> r.step == s.step && r.showOrderDialog)
      && (!blocked && s.step == 2 && s.selectedTier == Some(CustomMade) ==> r.selectedDevType == Some(InConsultation))
      && (!blocked && !(s.step == 2 && s.selectedTier == Some(CustomMade)) ==> r.selectedDevType == s.selectedDevType)
  {
  }

  /** `handleBack` steps back only above step 1 and keeps every selection,
      also after the effects have run. */
  lemma BackKeepsSelections(s: PageState)
    requires Inv(s) && Settled(s)
    ensures var r := Apply(s, Back);
      && r.step == (if s.step > 1 then s.step - 1 else s.step)
      && r.selectedTier == s.selectedTier && r.selectedDevType == s.selectedDevType
      && r.selectedPackages == s.selectedPackages && r.clientType == s.clientType
      && r.quote == s.quote
  {
  }

  /** Clicking a technology or a package that does not fit the current
      selection changes nothing. */
  lemma IncompatibleClicksIgnored(s: PageState, d: DevType, p: Package)
    requires Settled(s)
    ensures !IsDevTypeCompatible(s.selectedTier, d) ==> Apply(s, ChooseDevType(d)) == s
    ensures !IsPackageCompatible(s.selectedDevType, p) ==> Apply(s, ClickPackage(p)) == s
  {
    EffectsSettle(s);
    if !IsDevTypeCompatible(s.selectedTier, d) {
      assert Handle(s, ChooseDevType(d)) == s;
    }
    if !IsPackageCompatible(s.selectedDevType, p) {
      assert Handle(s, ClickPackage(p)) == s;
    }
  }

  /** A compatible package click toggles it, and the calculator price is
      recomputed for the new selection. */
  lemma PackageClickReprices(s: PageState, p: Package)
    requires Settled(s) && IsPackageCompatible(s.selectedDevType, p)
    ensures var r := Apply(s, ClickPackage(p));
      && r.selectedPackages == Toggled(s.selectedPackages, p)
      && r.quote ==
         CalculatorQuote(s.clientType, s.selectedTier, s.selectedDevType, Toggled(s.selectedPackages, p))
  {
    var h := s.(selectedPackages := Toggled(s.selectedPackages, p));
    assert Handle(s, ClickPackage(p)) == h;
    assert Defaults(h) == h;
  }

  /** Reaching step 2 without a tier selects Starter, the first tier;
      reaching step 3 with a tier but no technology selects "I don't know",
      the first technology compatible with it. */
  lemma AutoSelection(h: PageState)
    ensures h.step == 2 && h.selectedTier.None? ==> AfterEffects(h).selectedTier == Some(Starter)
    ensures h.step == 3 && h.selectedTier.Some? && h.selectedDevType.None? ==>
              AfterEffects(h).selectedDevType == Some(IDontKnow)
  {
    if h.selectedTier.Some? {
      FirstCompatibleIsIDontKnow(h.selectedTier.value);
    }
  }

  /** The effects only fill in what is missing: they keep the step and
      every choice already made. */
  lemma EffectsKeepChoices(h: PageState)
    ensures var r := AfterEffects(h);
      && r.step == h.step && r.clientType == h.clientType && r.selectedPackages == h.selectedPackages
      && (h.selectedTier.Some? ==> r.selectedTier == h.selectedTier)
      && (h.selectedDevType.Some? ==> r.selectedDevType == h.selectedDevType)
      && r.quote == CalculatorQuote(r.clientType, r.selectedTier, r.selectedDevType, r.selectedPackages)
  {
  }

  /** Continuing from the custom-made tier stores the consultation
      technology; going back and picking Starter keeps it, although it does
      not fit Starter, so the calculator still asks for a consultation. */
  lemma ConsultationTechnologyOutlivesTier(s: PageState)
    requires Inv(s) && Settled(s) && s.step == 2 && s.selectedTier == Some(CustomMade)
    ensures var r := Apply(Apply(Apply(Apply(s, Continue), Back), SelectTier(Starter)), Continue);
      && r.step == 3 && r.selectedTier == Some(Starter) && r.selectedDevType == Some(InConsultation)
      && !IsDevTypeCompatible(Some(Starter), InConsultation)
      && r.quote == Quote(None, None, true)
  {
    var s1 := Apply(s, Continue);
    ContinueFromStep2(s);
    var s2 := Apply(s1, Back);
    BackKeepsSelections(s1);
    ApplyKeepsInv(s1, Back);
    var s3 := Apply(s2, SelectTier(Starter));
    SelectTierKeepsTechnology(s2, Starter);
    ContinueFromStep2(s3);
    var r := Apply(s3, Continue);
    ConsultationShortCircuit(r.clientType, Starter, Some(InConsultation), r.selectedPackages);
  }

  /** Continuing from step 2 reaches step 3 with the tier kept; the
      custom-made tier brings the consultation technology with it, any
      other tier keeps the technology already chosen. */
  lemma ContinueFromStep2(s: PageState)
    requires Inv(s) && Settled(s) && s.step == 2
    ensures var r := Apply(s, Continue);
      && Inv(r) && Settled(r) && r.step == 3 && r.selectedTier == s.selectedTier
      && r.selectedPackages == s.selectedPackages && r.clientType == s.clientType
      && (s.selectedTier == Some(CustomMade) ==> r.selectedDevType == Some(InConsultation))
      && (s.selectedTier != Some(CustomMade) && s.selectedDevType.Some? ==> r.selectedDevType == s.selectedDevType)
  {
    ApplyKeepsInv(s, Continue);
    ContinueTransitions(s);
    EffectsKeepChoices(Handle(s, Continue));
  }

  /** Choosing a tier at step 2 keeps the technology chosen before. */
  lemma SelectTierKeepsTechnology(s: PageState, t: Tier)
    requires Inv(s) && Settled(s) && s.step == 2
    ensures var r := Apply(s, SelectTier(t));
      && Inv(r) && Settled(r) && r.step == 2 && r.selectedTier == Some(t)
      && r.selectedDevType == s.selectedDevType
  {
    ApplyKeepsInv(s, SelectTier(t));
    EffectsKeepChoices(Handle(s, SelectTier(t)));
  }

  /** The bundle auto-selection only fills an empty choice: a company that
      picked MVP and then switches to the student type keeps MVP selected,
      although it is no longer listed, and is quoted the discounted price. */
  lemma MvpStaysSelected(s: PageState)
    requires Settled(s) && s.selectedBundle == Some(Mvp) && s.bundleClientType == Company
    ensures var r := Apply(s, SelectBundleClientType(Student));
      && r.selectedBundle == Some(Mvp) && Mvp !in VisibleBundles(Student)
      && r.bundleQuote == BundleQuote(Some(374), None)
  {
    VisibleBundlesShape(Student);
    MvpBundlePrices();
  }

  /** Without first name, last name and email nothing is sent and the page
      does not change. */
  lemma IncompleteOrderNotSent(s: PageState, f: OrderForm)
    requires Settled(s) && !RequiredFilled(f)
    ensures Apply(s, SubmitOrder(f)) == s
  {
    EffectsSettle(s);
  }

  /** A click on the disabled submit button changes nothing: a running
      submission blocks a second one, and an enabled click marks the page
      submitting, which disables the button. */
  lemma SubmitOrderGuard(s: PageState, f: OrderForm, g: OrderForm)
    requires Settled(s)
    ensures Apply(s, SubmitOrder(f)) == s <==> !OrderSendable(s, f)
    ensures OrderSendable(s, f) ==> Apply(s, SubmitOrder(f)).isSubmitting &&
                                    !OrderSendable(Apply(s, SubmitOrder(f)), g)
  {
    EffectsSettle(s);
    EffectsKeepChoices(Handle(s, SubmitOrder(f)));
  }

  /** The order request from the bundles tab carries the bundle's key, its
      client type and its prices, and the endpoint's subject names that
      bundle. */
  lemma BundleOrderSubject(s: PageState, f: OrderForm, language: string, isNL: bool)
    requires Settled(s) && s.activeTab == PredefinedPackages
    ensures var pd := OrderPayload(s, f, language).packageDetails.fields;
      && FormSubmission.PricingSubject(pd, isNL) ==
         FormSubmission.PricingWords(isNL).title + ": " + BundleKey(s.selectedBundle.value)
      && pd.clientType == Js.Str(ClientTypeKey(s.bundleClientType))
      && pd.price == PriceValue(BundleQuoteOf(s.selectedBundle, s.bundleClientType).price)
  {
  }

  /** From the calculator tab the request carries the selections and no
      `package` member, so the endpoint's subject falls back to the
      custom-package wording. */
  lemma CalculatorOrderSubject(s: PageState, f: OrderForm, language: string, isNL: bool)
    requires Settled(s) && s.activeTab == Calculate
    ensures var pd := OrderPayload(s, f, language).packageDetails.fields;
      && FormSubmission.PricingSubject(pd, isNL) ==
         FormSubmission.PricingWords(isNL).title + ": " + FormSubmission.PricingWords(isNL).customPackage
      && pd.packages == Some(PackageKeys(s.selectedPackages))
      && pd.price == PriceValue(CalculatorQuote(s.clientType, s.selectedTier, s.selectedDevType, s.selectedPackages).oneTime)
  {
  }
}
