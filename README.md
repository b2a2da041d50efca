# 8Leaps site: pricing calculator, mail relays and wizards in Dafny

The model covers the logic of the 8Leaps marketing site, a Next.js application:

- **Pricing page** (`app/pricing/page.tsx`). It has a static catalog of tiers, technology approaches, add-on packages, predefined bundles and client-type discounts. On top of it sit:
  - two price computations: the calculator effect and the bundle effect;
  - the card helpers;
  - the automatic tier, technology and bundle choices;
  - the 4-step calculator wizard;
  - the order dialog, which posts to the form-submission endpoint.
- **The two mail relays.**
  - `app/api/form-submission/route.ts` turns a `pricing`, `mvp` or other form into a mail to the business inbox, then attempts a confirmation to the visitor.
  - `app/api/contact/route.ts` does the same for the contact form. Its confirmation quotes the message back.
- **The language provider** (`components/language-provider.tsx`): `t(key)` with its English and key-itself fallbacks, the mount-time choice of language and `setLanguage`.
- **The onboarding guide** (`app/guide/page.tsx`): a 3-step wizard whose form posts to the contact endpoint.
- **The carousel index** (`components/ui/carousel.tsx`).

How the model is built:

- **State.** Each page's state is a datatype (`PageState`, `GuideState`, `CarouselState`). A pure `Handle` function defines what each user event does to it.
- **Classes.** Each page also has a class with the same fields: `PricingPage.Page`, `Guide.Wizard`, `Carousel.Carousel`, `LanguageProvider.Provider`. Its methods update the fields in place, and each method's `ensures` ties the new state to the pure function.
- **React effects.** The pricing page's effects are one function, `AfterEffects`. It makes the automatic choices, then reprices. Every pricing event is its handler followed by the effects (`Apply`).
- **Money** is in euro cents. `Math.round` of the non-negative amounts is exact half-up rounding.
- **The endpoints** are pipelines. Each transport outcome is an input. The result is the JSON response plus the ordered list of transport calls (verify, send to the business, send the confirmation).
- **JavaScript values.** Values the endpoints read from the JSON body are small JavaScript values (`Js.Value`). This models their truthiness, `a || b` and `${v}` rendering, and the TypeErrors a template throws.
- **Translation tables** are parameters. Their entries are not transcribed.

## Model

| member | source | states |
|---|---|---|
| PricingCatalog.CatalogWellFormed | app/pricing/page.tsx:56-189 | A tier or technology has a price exactly when it is not a consultation item. Every technology fits some tier. "I don't know" fits every tier and is a consultation item. Every package has a positive price. |
| PricingCatalog.IsDevTypeCompatible | app/pricing/page.tsx:517-520 | `isDevTypeCompatible`: false while no tier is chosen, otherwise whether the technology lists the tier. |
| PricingCatalog.IsPackageCompatible | app/pricing/page.tsx:523-526 | `isPackageCompatible`: false while no technology is chosen, otherwise whether the package lists the technology. |
| PricingCatalog.CompatibilityRules | app/pricing/page.tsx:517-526 | Nothing is compatible before its parent is chosen. Custom-made takes neither WordPress approach, and only custom-made takes the consultation approach. "I don't know" takes no package, the consultation approach takes only contact forms, and only the WordPress approaches take integrations. All are stated as if-and-only-if rules against the catalog's lists. |
| PricingCatalog.CustomMadeExcludesWordPress | app/pricing/page.tsx:56-189 | The two WordPress approaches do not fit the custom-made tier. Starter fits every technology except the consultation one. |
| PricingCatalog.DiscountPercent | app/pricing/page.tsx:582-586 | The discount percentage of every client type is below 100, so a discounted price is never zero for a positive amount. |
| PricingCatalog.BundleKey | app/pricing/page.tsx:1681-1696 | The bundle key sent with an order is never empty. |
| PriceEngine.RoundHalfUp | app/pricing/page.tsx:463-464 | For a non-negative amount, `Math.round(n / d)` is the integer nearest to n/d, with halves rounded up. |
| PriceEngine.RoundHalfUpMonotone | app/pricing/page.tsx:463-464 | Rounding preserves order. |
| PriceEngine.CalculatorQuote | app/pricing/page.tsx:396-466 | The calculator effect as a reference definition. No tier means no price. Custom-made or a consultation item asks for a consultation. Otherwise the tier, technology and one-time packages are summed, discounted and rounded once, and a positive monthly sum gives a monthly fee. |
| PriceEngine.BundleQuoteOf | app/pricing/page.tsx:323-393 | The bundle effect as a reference definition: no bundle gives no price, otherwise the bundle's catalog entry is priced. |
| PriceEngine.DataQuote | app/pricing/page.tsx:330-392 | One entry's price: a flat price discounted, a consultation entry unpriced, and a composed entry summed like the calculator. |
| PriceEngine.CardPrice | app/pricing/page.tsx:787-797 | The card's displayed amount: a company sees the raw catalog sum, other clients the discounted, rounded euros. |
| PriceEngine.ComputeCalculatorQuote | app/pricing/page.tsx:396-466 | The calculator effect's loop computes `CalculatorQuote`. No tier shows nothing. Custom-made or a consultation item asks for a consultation. Otherwise it shows the discounted, rounded one-time total, plus a monthly fee when that fee is positive. |
| PriceEngine.ComputeBundleQuote | app/pricing/page.tsx:323-393 | The bundle effect computes `BundleQuoteOf`. |
| PriceEngine.ComputeDataQuote | app/pricing/page.tsx:330-392 | For one catalog entry: a flat price is discounted, a consultation bundle has no price, and a composed bundle sums its tier, technology and packages with a loop. |
| PriceEngine.CalculatePackagePrice | app/pricing/page.tsx:955-984 | `calculatePackagePrice` is 0 for a consultation bundle. Otherwise it is the tier, technology and one-time package prices. |
| PriceEngine.CalculateMonthlyPrice | app/pricing/page.tsx:987-999 | `calculateMonthlyPrice` is the sum of the monthly packages. |
| PriceEngine.SumsByCount | app/pricing/page.tsx:443-456 | The package sums depend only on how often each package occurs. |
| PriceEngine.PackageOrderIrrelevant | app/pricing/page.tsx:396-466 | Two selections that are permutations of each other get the same quote. |
| PriceEngine.HasMonthlyFeeIffMonthlySum | app/pricing/page.tsx:1002-1004 | `hasMonthlyFee` holds exactly when the monthly sum is positive. |
| PriceEngine.DiscountedEurosMonotone | app/pricing/page.tsx:458-464 | A larger amount never gets a smaller discounted price. |
| PriceEngine.AddingPackageNeverLowersPrice | app/pricing/page.tsx:443-464 | Adding a package keeps whether a price or a consultation is shown. It never lowers the one-time price or the monthly fee. |
| PriceEngine.NoTierNoPrice | app/pricing/page.tsx:398-403 | Without a tier there is no price and no consultation. |
| PriceEngine.ConsultationShortCircuit | app/pricing/page.tsx:405-425 | Custom-made, or a consultation technology, hides both prices whatever the packages. |
| PriceEngine.QuoteCases | app/pricing/page.tsx:396-466 | A consultation is asked for exactly when a tier is chosen and it, or the chosen technology, is a consultation item. A price is shown exactly when both are chosen and neither is one. There is never a monthly fee without a price. |
| PriceEngine.CompanyPaysFullPrice | app/pricing/page.tsx:582-586 | Companies pay whole-euro totals unchanged. |
| PriceEngine.DiscountExamples | app/pricing/page.tsx:582-586 | 1000 euros cost 750 for a student and 500 for a non-profit. |
| PriceEngine.StarterFrontendExample | app/pricing/page.tsx:396-466 | Starter with Frontend Full, Setup and Maintenance costs 597 + 10/month for a company, 299 + 5 for a non-profit and 448 + 7 for a student. |
| PriceEngine.DiscountAppliedToTotalNotPerLine | app/pricing/page.tsx:458-464 | The discount and the rounding are applied to the total. Rounding each line would give 300 instead of 299. |
| PriceEngine.BundleAgreesWithCalculator | app/pricing/page.tsx:323-393 | A composed bundle costs what the calculator charges for the same tier, technology and packages. |
| PriceEngine.MvpBundlePrices | app/pricing/page.tsx:330-340 | The MVP bundle is a flat 499, 374 or 250 euros, by client type. |
| PriceEngine.UnpricedBundles | app/pricing/page.tsx:342-350 | The premium bundle, and no bundle at all, show no price. |
| PriceEngine.SumsSnoc | app/pricing/page.tsx:443-456 | Appending a package adds its price to exactly one of the two sums. |
| PriceEngine.BundleSums | app/pricing/page.tsx:56-189 | The add-on sums of the simple and plus bundles are 148.00 and 247.00 one-time, plus 9.99 monthly. |
| PriceEngine.BasicBundlePrice | app/pricing/page.tsx:323-393 | The simple bundle costs a company 646 + 10/month. |
| PriceEngine.BusinessBundlePrice | app/pricing/page.tsx:323-393 | The plus bundle costs a company 1495 + 10/month. |
| PriceEngine.CardMonthlyForCompanyIsUnrounded | app/pricing/page.tsx:787-797 | A bundle card shows a company the monthly 9.99 unrounded, where the effect says 10. For discounted clients card and effect agree. |
| PriceEngine.CardOneTimeAgreesWithEffect | app/pricing/page.tsx:787-797 | For discounted clients the card's one-time figure is the effect's price. |
| PriceEngine.CompanyCardsAgreeWithEffect | app/pricing/page.tsx:787-797 | For companies the priced bundles' cards show the effect's price. |
| PricingPage.Without | app/pricing/page.tsx:530-533 | The filter keeps no more elements than it had. |
| PricingPage.WithoutRemoves | app/pricing/page.tsx:530-533 | Deselecting a package removes every occurrence of it. |
| PricingPage.WithoutAbsent | app/pricing/page.tsx:530-533 | Filtering out an absent package changes nothing. |
| PricingPage.WithoutAppend | app/pricing/page.tsx:530-533 | The filter distributes over concatenation. |
| PricingPage.WithoutIdempotent | app/pricing/page.tsx:530-533 | Filtering twice is filtering once. |
| PricingPage.WithoutKeeps | app/pricing/page.tsx:530-533 | Other packages stay selected exactly when they were. |
| PricingPage.ToggledFlips | app/pricing/page.tsx:530-536 | `togglePackage` flips the membership of exactly that package. Toggling an unselected package twice restores the selection. |
| PricingPage.VisibleFilter | app/pricing/page.tsx:692-705 | The filtered bundle list is no longer than the catalog's. |
| PricingPage.VisibleBundlesShape | app/pricing/page.tsx:692-705 | Companies see simple, plus, premium, MVP; other clients the first three. MVP is listed exactly for companies. |
| PricingPage.FilterOfAllBundles | app/pricing/page.tsx:952 | The filter, applied to the catalog order, drops MVP exactly for non-companies. |
| PricingPage.VisibleBundlesStartWithBasic | app/pricing/page.tsx:237-262 | The list the bundle auto-selection picks from starts with the simple bundle. |
| PricingPage.FirstCompatible | app/pricing/page.tsx:481-484 | `find` over the technologies in declaration order: the result fits the tier and every earlier candidate does not. None is found only when no candidate fits. |
| PricingPage.FirstCompatibleIsIDontKnow | app/pricing/page.tsx:479-490 | For every tier the auto-selected technology is "I don't know". |
| PricingPage.PackageKeys | app/pricing/page.tsx:1681-1696 | The package list sent has one key per selected package, in order. |
| PricingPage.EffectsSettle | app/pricing/page.tsx:237-262 | Running the effects settles the page. On a settled page they change nothing. |
| PricingPage.InitialSettled | app/pricing/page.tsx:220-280 | The mounted page is settled. It keeps the invariant, is at step 1 and has the simple bundle selected. |
| PricingPage.HandleKeepsInv | app/pricing/page.tsx:539-579 | From a state where the effects have no tier left to choose, every enabled handler keeps the step between 1 and 4. A technology stays chosen only with a tier. From step 3 on a tier is chosen, and at step 4 a technology. |
| PricingPage.EffectsRestoreInv | app/pricing/page.tsx:471-490 | The effects restore the full invariant: from step 3 on, a tier and a technology are chosen. |
| PricingPage.ApplyKeepsInv | app/pricing/page.tsx:539-579 | Every enabled event, followed by the effects, keeps the invariant and leaves the page settled. |
| PricingPage.ContinueNeverBlocked | app/pricing/page.tsx:539-572 | On a settled page "continue" never shows an error. |
| PricingPage.ContinueTransitions | app/pricing/page.tsx:539-572 | `handleContinue` has two blocked cases: a missing tier at step 2, and a missing technology at step 3 outside custom-made. A blocked continue changes only the errors. Otherwise it clears the errors and advances one step, or opens the order dialog at step 4. From step 2 with custom-made it chooses the consultation technology. |
| PricingPage.BackKeepsSelections | app/pricing/page.tsx:575-579 | `handleBack` steps back only above step 1 and keeps every selection and the quote. |
| PricingPage.IncompatibleClicksIgnored | app/pricing/page.tsx:1064 | A click on a technology or package that does not fit changes nothing. |
| PricingPage.PackageClickReprices | app/pricing/page.tsx:1549-1553 | A compatible package click toggles the package, and the calculator price is recomputed. |
| PricingPage.AutoSelection | app/pricing/page.tsx:471-490 | Reaching step 2 without a tier selects Starter. Reaching step 3 without a technology selects "I don't know". |
| PricingPage.EffectsKeepChoices | app/pricing/page.tsx:396-490 | The effects only fill in what is missing, and they set the quote to the calculator's. |
| PricingPage.ConsultationTechnologyOutlivesTier | app/pricing/page.tsx:539-579 | Continuing from custom-made stores the consultation technology. Going back and picking Starter keeps it although it does not fit Starter, so a consultation is still asked for. |
| PricingPage.ContinueFromStep2 | app/pricing/page.tsx:539-572 | Continuing from step 2 reaches step 3 with the tier and packages kept. |
| PricingPage.SelectTierKeepsTechnology | app/pricing/page.tsx:1022 | Choosing a tier at step 2 keeps the technology chosen before. |
| PricingPage.MvpStaysSelected | app/pricing/page.tsx:237-262 | MVP stays selected after a switch to students, although it is no longer listed. It is quoted 374. |
| PricingPage.IncompleteOrderNotSent | app/pricing/page.tsx:1671-1674 | Without first name, last name and e-mail nothing is sent and nothing changes. |
| PricingPage.SubmitOrderGuard | app/pricing/page.tsx:1741 | A submit click changes the page exactly when no submission is running and the required fields are filled. After an accepted click the button is disabled, so no second order is sent until the first finishes. |
| PricingPage.BundleOrderSubject | app/pricing/page.tsx:1681-1696 | A bundle order sends the bundle's key, client type and price, and the endpoint's subject names the bundle. |
| PricingPage.CalculatorOrderSubject | app/pricing/page.tsx:1681-1696 | A calculator order sends no `package`, so the subject falls back to the custom-package wording. It sends the package keys and the calculator's price. |
| PricingPage.Handle | app/pricing/page.tsx:530-1739 | What each handler sets before the effects run. A technology or package click is taken only when compatible. A slide index past the list selects nothing. A submit is taken only when sendable. A finished submission closes the dialog only on success. |
| PricingPage.Defaults | app/pricing/page.tsx:237-490 | The three choosing effects: the first visible bundle when none is selected, the first tier on reaching step 2 without one, and the first compatible technology on reaching step 3 without one. |
| PricingPage.AfterEffects | app/pricing/page.tsx:237-490 | The effects together: the defaults are chosen first, then both prices are computed from them. |
| PricingPage.ContinueFrom | app/pricing/page.tsx:539-572 | `handleContinue`: the tier error at step 2 and the technology error at step 3 outside custom-made, otherwise the errors are cleared and the page advances or opens the dialog. Continuing from custom-made at step 2 chooses the consultation technology. |
| PricingPage.StepperFrom | app/pricing/page.tsx:1350-1392 | The stepper's guards: steps 1 and 2 always, step 3 with a tier, step 4 with a technology, otherwise the matching error. |
| PricingPage.OrderPayload | app/pricing/page.tsx:1681-1696 | The `formData` the dialog posts. From the bundles tab it carries the bundle key and the bundle prices. From the calculator it carries the tier, technology and package keys and the calculator prices. Both carry the client type, contact fields and language. |
| PricingPage.Page.constructor | app/pricing/page.tsx:220-280 | The first render followed by the effects is `Initial()`. |
| PricingPage.Page.RunEffects | app/pricing/page.tsx:237-490 | The effects applied in place equal `AfterEffects`. |
| PricingPage.Page.ChooseDefaults | app/pricing/page.tsx:471-490 | The auto-selection effects update the fields as `Defaults` says. |
| PricingPage.Page.Reprice | app/pricing/page.tsx:323-466 | The two price effects store the bundle quote and the calculator quote. |
| PricingPage.Page.SetActiveTab | app/pricing/page.tsx:1226 | Switching tabs is `Apply(SetActiveTab)`. |
| PricingPage.Page.SelectBundleClientType | app/pricing/page.tsx:626 | Picking a client type card on the bundles tab is `Apply(SelectBundleClientType)`. |
| PricingPage.Page.SelectBundle | app/pricing/page.tsx:714 | Clicking a bundle card is `Apply(SelectBundle)`. |
| PricingPage.Page.OrderBundle | app/pricing/page.tsx:820-824 | A bundle's order button selects it and opens the dialog. |
| PricingPage.Page.SelectBundleBySlide | app/pricing/page.tsx:1263-1283 | The mobile bundle carousel selects the bundle at the slide index, if one is there. |
| PricingPage.Page.MobileContinue | app/pricing/page.tsx:1297-1305 | The mobile continue button returns the MVP redirect, and otherwise opens the dialog. |
| PricingPage.Page.SelectClientType | app/pricing/page.tsx:644 | Picking the calculator's client type is `Apply(SelectClientType)`. |
| PricingPage.Page.SelectTier | app/pricing/page.tsx:1022 | Picking a tier is `Apply(SelectTier)`. |
| PricingPage.Page.ChooseDevType | app/pricing/page.tsx:1064 | A technology click is taken only when compatible. |
| PricingPage.Page.ClickPackage | app/pricing/page.tsx:1549-1553 | A package click toggles the package only when compatible. |
| PricingPage.Page.Continue | app/pricing/page.tsx:539-572 | `handleContinue` in place, followed by the effects. |
| PricingPage.Page.Back | app/pricing/page.tsx:575-579 | `handleBack` in place, followed by the effects. |
| PricingPage.Page.StepperClick | app/pricing/page.tsx:1350-1392 | The stepper is `Apply(StepperClick)`. It always moves to steps 1 and 2, since a client type is always set. It moves to step 3 only with a tier and to step 4 only with a technology. Otherwise it shows the matching error. |
| PricingPage.Page.ConsultationContinue | app/pricing/page.tsx:1466 | The consultation button at step 3 jumps to step 4. |
| PricingPage.Page.RequestConsultation | app/pricing/page.tsx:1518 | "Request a consultation" opens the order dialog. |
| PricingPage.Page.CloseOrderDialog | app/pricing/page.tsx:1657 | Cancel closes the dialog. |
| PricingPage.Page.SubmitOrder | app/pricing/page.tsx:1662-1741 | When no submission is running and the required fields are filled, it returns the request body `OrderPayload` and marks the page submitting. Otherwise, because the button is disabled or the required check returns early, it returns nothing and changes nothing. |
| PricingPage.Page.SubmitFinished | app/pricing/page.tsx:1720-1739 | The dialog closes only on success, and submitting ends either way. |
| Relay.Success200 | app/api/contact/route.ts:224-227 | A success is status 200. |
| Relay.Failure500 | app/api/contact/route.ts:228-237 | A failure is status 500 with the error text. |
| Relay.MarkupSingleLine | app/api/contact/route.ts:90-106 | The HTML markup around values adds no line break. |
| Relay.Delivered | app/api/contact/route.ts:109-222 | The delivery phase's specification: a failed verification answers 500 after one call; a failed business mail answers 500 after two; otherwise the answer is 200 and the confirmation is the third call. |
| Relay.DeliveryOf | app/api/contact/route.ts:109-136 | This is the delivery phase. A failed verification stops everything. A failed send to the business is fatal. Once that mail is out the confirmation is attempted. Status 200 means success. |
| Relay.Deliver | app/api/contact/route.ts:109-222 | The transport calls made in order compute `DeliveryOf`. |
| Relay.DeliveredIsDeterministic | app/api/contact/route.ts:141-222 | The response and the calls do not depend on how the confirmation fared. |
| Relay.DeliveredCallOrder | app/api/contact/route.ts:109-222 | Each endpoint verifies first and makes at most three calls. The visitor is written to only after the business mail, hence only on success. Three calls is exactly success. |
| FormSubmission.IsDutch | app/api/form-submission/route.ts:9-46 | `(language \|\| "en") === "nl"` holds exactly for the string "nl". |
| FormSubmission.PricingTextLines | app/api/form-submission/route.ts:60-98 | The plain-text pricing mail has 17 body lines. |
| FormSubmission.ClientTextLines | app/api/form-submission/route.ts:60-98 | The client block has 6 lines. |
| FormSubmission.DetailTextLines | app/api/form-submission/route.ts:60-98 | The package block has 10 lines. |
| FormSubmission.PricingHtmlLines | app/api/form-submission/route.ts:100-138 | The HTML pricing mail has 17 body lines. |
| FormSubmission.MessageHtml | app/api/form-submission/route.ts:118 | A falsy message gives the fallback text, and a string message never throws. |
| FormSubmission.Compose | app/api/form-submission/route.ts:53-213 | The branch on the form type: `pricing` reads `packageDetails` and renders the pricing mail, `mvp` renders the MVP mail, any other type gets a generic mail around the serialised form. The first TypeError a template throws stops composition. |
| FormSubmission.ComposeMessage | app/api/form-submission/route.ts:53-213 | The branch on the form type computes `Compose`. It stops at the TypeError of a missing `packageDetails`, of a truthy non-string `message` in the pricing mail, or of a truthy non-string `projectDescription` in the MVP mail. |
| FormSubmission.Submission | app/api/form-submission/route.ts:15-307 | Incomplete configuration gives a 500 without transport calls. So does a template that throws. Otherwise the delivery phase follows. |
| FormSubmission.Post | app/api/form-submission/route.ts:5-317 | Unparseable JSON and a missing or null `formData` give a 500 with the parse error or TypeError text. Otherwise the response and calls are `Submission`'s. |
| FormSubmission.Submit | app/api/form-submission/route.ts:9-307 | The handler from `formData.language` on computes `Submission`. |
| FormSubmission.ConfirmationForOtherTypes | app/api/form-submission/route.ts:248-288 | Every form type other than `pricing` gets the MVP confirmation. |
| FormSubmission.PricingTextConditionalLines | app/api/form-submission/route.ts:60-98 | Read line by line, the tier, technology, price and monthly lines appear exactly when their values are truthy. Otherwise the line holds only the indentation. |
| FormSubmission.ConditionalTextLines | app/api/form-submission/route.ts:60-98 | For any wording, lines 11 to 14 of the text mail are the conditional detail lines. |
| FormSubmission.PricingTextLinesSplit | app/api/form-submission/route.ts:60-98 | With single-line values, the text mail splits into its indented body lines. |
| FormSubmission.PricingHtmlMessageLine | app/api/form-submission/route.ts:100-138 | In the HTML mail the message is one paragraph on one line, with its line breaks as `<br>` and the rest copied unescaped. |
| FormSubmission.HtmlParagraphLine | app/api/form-submission/route.ts:100-138 | For any wording, line 17 of the HTML mail is the message paragraph. |
| FormSubmission.PricingHtmlLinesSplit | app/api/form-submission/route.ts:100-138 | With single-line values, the HTML mail splits into its indented body lines. |
| FormSubmission.PackageListNotRendered | app/api/form-submission/route.ts:53-138 | The package key list is sent but never rendered: the mail is the same whatever it holds. |
| FormSubmission.PricingIgnoresPackages | app/api/form-submission/route.ts:53-138 | The pricing mail does not depend on `packages`. |
| FormSubmission.MvpIgnoresPackageDetails | app/api/form-submission/route.ts:139-202 | The MVP mail does not depend on `packageDetails`. |
| FormSubmission.NonStringMessageThrows | app/api/form-submission/route.ts:118 | A truthy non-string message makes the pricing mail throw "message.replace is not a function". |
| Contact.TextLines | app/api/contact/route.ts:71-87 | The plain-text mail has 6 body lines. |
| Contact.HtmlLines | app/api/contact/route.ts:90-106 | The HTML mail has 6 body lines. |
| Contact.Subject | app/api/contact/route.ts:67-69 | The business mail's subject: the language's title, a colon and the visitor's subject. |
| Contact.ConfirmationMail | app/api/contact/route.ts:207-213 | The confirmation goes from the configured sender to the visitor's address under the language's subject, with the quoting text and HTML. |
| Contact.Outcome | app/api/contact/route.ts:27-227 | Incomplete configuration gives a 500 without transport calls. So does a message whose `replace` throws. Otherwise the delivery phase follows, with the confirmation addressed to the visitor. |
| Contact.Post | app/api/contact/route.ts:5-237 | Unparseable JSON gives a 500 with "Failed to send message" and the parse error. Otherwise the result is `Outcome`, with the message's newlines converted. |
| Contact.NonStringMessageRejected | app/api/contact/route.ts:90-106 | A message that is not a string gives a 500 with the TypeError before any transport call. |
| Contact.LanguageChoiceAgrees | app/api/contact/route.ts:64 | The contact endpoint and the form-submission endpoint pick Dutch for exactly the same `language` values. |
| Contact.WordsSingleLine | app/api/contact/route.ts:67-106 | The contact labels are single lines in both languages. |
| Contact.MessageTextLines | app/api/contact/route.ts:71-87 | Read line by line, the text mail is: a blank line, the name line, the indentation, the message, and the closing indentation. A one-line message is one line of the mail. |
| Contact.TextLinesSplit | app/api/contact/route.ts:71-87 | With single-line values, the text mail splits into its indented body lines. |
| Contact.HtmlMessageLine | app/api/contact/route.ts:90-106 | In the HTML mail the message is one paragraph on line 6, with its line breaks as `<br>`. |
| Contact.HtmlLinesSplit | app/api/contact/route.ts:90-106 | With single-line values, the HTML mail splits into its indented body lines. |
| Contact.ConfirmationAddressed | app/api/contact/route.ts:141-213 | The confirmation goes from the configured sender to the visitor, without reply-to, under the language's subject. |
| Contact.ConfirmationQuotesMessage | app/api/contact/route.ts:149-205 | The confirmation quotes the subject and the message: the raw message in the text and the converted one in the HTML. |
| LanguageProvider.Translate | components/language-provider.tsx:810-827 | `t` returns the current language's entry, else the English entry, else the key itself. |
| LanguageProvider.DefaultTranslate | components/language-provider.tsx:782-786 | Outside a provider `t` is the identity. |
| LanguageProvider.FirstSegment | components/language-provider.tsx:793 | `split("-")[0]` is the longest dash-free prefix of the tag. |
| LanguageProvider.MountedLanguage | components/language-provider.tsx:791-803 | The mount effect's choice: Dutch when the browser tag's first segment is "nl", then a stored "en" or "nl" overrides; any other stored value is ignored. |
| LanguageProvider.Provider.constructor | components/language-provider.tsx:789 | The first render is English. |
| LanguageProvider.Provider.Mount | components/language-provider.tsx:791-803 | The mount effect sets `MountedLanguage`: Dutch for a Dutch browser, then a valid stored preference wins. |
| LanguageProvider.Provider.SetLanguage | components/language-provider.tsx:805-808 | `setLanguage` switches and stores the code under "language". |
| LanguageProvider.EnglishHasNoFallback | components/language-provider.tsx:810-827 | In English `t` gives the English entry or the key. |
| LanguageProvider.MissingKeyIsItself | components/language-provider.tsx:822-826 | A key in neither table comes back unchanged, as outside a provider. |
| LanguageProvider.RegionalTags | components/language-provider.tsx:793-796 | "nl-BE" selects Dutch; "en-NL" and "nld" do not. |
| LanguageProvider.InitialLanguageIff | components/language-provider.tsx:791-803 | On mount the language is Dutch exactly when "nl" is stored, or when the browser is Dutch and "en" is not stored. Other stored values are ignored. |
| LanguageProvider.ChoiceSurvivesReload | components/language-provider.tsx:805-808 | A stored choice is restored on the next mount, whatever the browser's language. |
| Guide.WithField | app/guide/page.tsx:110-116 | `handleFormChange` sets exactly the named field. |
| Guide.PathLabelKey | app/guide/page.tsx:93-95 | The startup label key is used only for "startup". |
| Guide.SolutionLabelKey | app/guide/page.tsx:97-108 | Only the seven listed solutions have a label key, "guide.solution.<s>.label". |
| Guide.SolutionLabel | app/guide/page.tsx:97-108 | The label is the solution's translation. It is the "not selected" text when the solution is unknown or absent, or its translation is empty. |
| Guide.OrNoneProvided | app/guide/page.tsx:140-144 | An empty value is replaced by "None provided". |
| Guide.MessageLines | app/guide/page.tsx:132-145 | The message sent has 15 lines. |
| Guide.Request | app/guide/page.tsx:124-147 | The body posted to the contact endpoint carries the visitor's name and e-mail, with `language` always "en". |
| Guide.InitialKeepsInv | app/guide/page.tsx:18-31 | The guide starts at step 0 and satisfies the invariant. |
| Guide.HandleKeepsInv | app/guide/page.tsx:54-91 | Every event the page offers keeps the invariant. The step stays between 0 and 3. From step 2 a path is chosen. At step 3 a solution of that path is chosen. The dialog is open only at step 3. |
| Guide.StepClickOnlyBack | app/guide/page.tsx:178-181 | A step click moves only to an earlier step or the current one. A later step changes nothing. The choices are kept. |
| Guide.ClickableCircles | app/guide/page.tsx:256-276 | A circle not shown as clickable ignores clicks. |
| Guide.StartOverResets | app/guide/page.tsx:87-91 | Starting over resets the step to 0 and forgets both choices; doing it twice is doing it once. No other event the page offers returns to step 0. |
| Guide.SelectionsAdvance | app/guide/page.tsx:54-73 | Choosing a path moves to step 2, a solution to step 3, and "start" to step 1. A solution chosen earlier survives a change of path. |
| Guide.CircleBadges | app/guide/page.tsx:256-276 | Circles before the current step show as completed and the circle at it as current. A circle is clickable exactly when it shows as completed. |
| Guide.PathLabelOnlyStartup | app/guide/page.tsx:93-95 | Any path other than "startup", and none, gives the scale-up label. |
| Guide.UnknownSolutionNotSelected | app/guide/page.tsx:97-108 | An unknown solution reads like no solution. |
| Guide.DialogSolutionKnown | app/guide/page.tsx:590-642 | Whenever the dialog is open, the solution has a label key. |
| Guide.SubmitGuard | app/guide/page.tsx:830 | A click on the disabled submit button changes nothing. A running submission blocks a second one. |
| Guide.SubmitOutcome | app/guide/page.tsx:149-173 | A success empties the form and shows success. A non-ok response or a thrown fetch keeps the form and shows the error. The button is released either way. |
| Guide.MessageSections | app/guide/page.tsx:132-145 | With single-line inputs, read line by line, the message names the path and solution on lines 2 and 3. It quotes the description on line 6. It gives the details and URL, or "None provided", on lines 9 and 12. |
| Guide.RequestIsEnglish | app/guide/page.tsx:124-147 | The contact endpoint answers a guide submission in English whatever the page language. The subject is "New Contact Form Submission: Guide Request: <label>". |
| Guide.Handle | app/guide/page.tsx:54-211 | What each handler sets: path and solution choices advance the step, a step click moves only back, start over clears both choices, a submit is taken only when enabled, and its outcome and the success timer set the status, form and dialog. |
| Guide.SubmitEnabled | app/guide/page.tsx:830 | The submit button is enabled only when no submission runs and name, e-mail and message are non-empty. |
| Guide.PathSolutions | app/guide/page.tsx:380-570 | The solution cards of each path: the startup path offers MVP, validation, website and other; the scale-up path offers marketing, AI, process and other. |
| Guide.Wizard.constructor | app/guide/page.tsx:18-31 | The first render is `Initial()`. |
| Guide.Wizard.StartJourney | app/guide/page.tsx:210-211 | `handleStartJourney` sets step 1. |
| Guide.Wizard.SelectPath | app/guide/page.tsx:54-57 | `handlePathSelection` sets the path and moves to step 2. |
| Guide.Wizard.SelectSolution | app/guide/page.tsx:71-73 | `handleSolutionSelection` sets the solution and moves to step 3. |
| Guide.Wizard.StepClick | app/guide/page.tsx:178-181 | `handleStepClick` moves only when the index is at most the current step. |
| Guide.Wizard.StartOver | app/guide/page.tsx:87-91 | `handleStartOver` resets the step and both choices. |
| Guide.Wizard.SetModalOpen | app/guide/page.tsx:642 | The dialog opens from step 3 and closes on cancel or its own close. |
| Guide.Wizard.ChangeField | app/guide/page.tsx:110-116 | `handleFormChange` sets one field. |
| Guide.Wizard.Submit | app/guide/page.tsx:118-147 | An enabled submit returns the posted body, and sets submitting and the idle status. A disabled one returns nothing and changes nothing. |
| Guide.Wizard.SubmitFinished | app/guide/page.tsx:149-173 | The outcome of the post sets the status, resets the form on success and releases the button. |
| Guide.Wizard.SuccessTimerElapsed | app/guide/page.tsx:164-167 | The timer a success starts closes the dialog and resets the status. |
| Carousel.Clamp | components/ui/carousel.tsx:21 | `max(0, min(i, n-1))` is never negative. With a slide, it is a slide's index. It equals i exactly when i is one. Below 0 it gives 0, beyond the end the last index. |
| Carousel.Notify | components/ui/carousel.tsx:31-33 | The callback is recorded only when one is given. |
| Carousel.ClampIdempotent | components/ui/carousel.tsx:21 | Clamping twice is clamping once. |
| Carousel.ScrollToLandsOnSlide | components/ui/carousel.tsx:19-34 | With a slide, `scrollToIndex` lands on a slide and reports where it landed. It lands on any slide's index that is asked for. |
| Carousel.DotClick | components/ui/carousel.tsx:152 | A dot click highlights its slide. |
| Carousel.NoSlides | components/ui/carousel.tsx:21 | With no slides the index is 0, which is no slide. |
| Carousel.ButtonsDisabledWhereStuck | components/ui/carousel.tsx:128-139 | The previous button is disabled exactly where it would not move the index (at 0), and the next button exactly at the last slide. Otherwise they move by one. |
| Carousel.NextUndoesPrevious | components/ui/carousel.tsx:37-43 | From any slide but the first, next after previous returns to it. |
| Carousel.ButtonsKeepInRange | components/ui/carousel.tsx:16-43 | The index starts on a slide, and the buttons keep it on one. |
| Carousel.ScrollReportsChanges | components/ui/carousel.tsx:46-61 | `handleScroll` calls back exactly when the index changed, with the new index. Repeating it changes nothing. |
| Carousel.SwipeKeepsIndex | components/ui/carousel.tsx:77-91 | A swipe never moves the index itself. One of 50 pixels or less reports nothing. |
| Carousel.ScrollTo | components/ui/carousel.tsx:19-35 | `scrollToIndex`: the clamped index is taken and reported even when it did not change; nothing happens before the container is attached. |
| Carousel.Scrolled | components/ui/carousel.tsx:46-61 | `handleScroll`: only a changed index is taken and reported, without clamping. |
| Carousel.SwipeEnded | components/ui/carousel.tsx:73-91 | The end of a swipe: a swipe over 50 pixels with a callback reports the index scrolled to, and the index itself is not changed. |
| Carousel.Carousel.constructor | components/ui/carousel.tsx:16 | The index starts at 0 with nothing reported. |
| Carousel.Carousel.ScrollToIndex | components/ui/carousel.tsx:19-34 | `scrollToIndex` in place is `ScrollTo`. It scrolls to the slide width times the new index, and does nothing before the container is attached. |
| Carousel.Carousel.HandleNext | components/ui/carousel.tsx:37-39 | `handleNext` is `scrollToIndex(i + 1)`. |
| Carousel.Carousel.HandlePrevious | components/ui/carousel.tsx:41-43 | `handlePrevious` is `scrollToIndex(i - 1)`. |
| Carousel.Carousel.HandleScroll | components/ui/carousel.tsx:46-61 | `handleScroll` in place is `Scrolled`. |
| Carousel.Carousel.HandleTouchEnd | components/ui/carousel.tsx:77-91 | The end of a swipe over 50 pixels reports the index scrolled to, without changing it. |
| Js.Or | app/api/form-submission/route.ts:9 | `a \|\| b` is a when a is truthy, otherwise b. |
| Js.Render | app/api/contact/route.ts:71-87 | `${v}` of a string is the string itself. |
| Js.RenderOr | app/api/form-submission/route.ts:56-58 | `${a \|\| "x"}` renders a when truthy, otherwise "x". |
| Js.ReplaceNewlines | app/api/contact/route.ts:104 | `replace(/\n/g, "<br>")` on a string gives the converted string. On anything else it throws a TypeError. |
| Text.NatToString | app/api/form-submission/route.ts:60-98 | A price renders as decimal digits. |
| Text.ParseNatToString | app/api/form-submission/route.ts:60-98 | Rendering a price loses nothing: the digits read back to the amount. |
| Text.ReplaceNewlinesRemovesNewlines | app/api/contact/route.ts:104 | The converted message holds no line break. |
| Text.ReplaceNewlinesKeepsOtherText | app/api/contact/route.ts:104 | A message without line breaks is unchanged. |
| Text.SplitJoin | app/api/contact/route.ts:71-87 | Splitting newline-free lines joined by newlines gives them back. |
| Text.JoinSplit | app/api/contact/route.ts:71-87 | Joining the lines of a text gives the text back. |
| Text.TemplateLines | app/api/contact/route.ts:71-87 | A multi-line template splits into a blank line, its indented body lines and the closing indentation. |

## Left out

- Mail transport and HTTP: `nodemailer`, `fetch`, `NextResponse`, `alert` and the console logging are I/O. Transport outcomes are inputs, and responses and calls are results. The SMTP port, secure flag and TLS options only configure the transport.
- The body of an outgoing fetch is modelled as the request value it serialises. `JSON.stringify` output for generic forms is an input string.
- Browser state: `localStorage`, `navigator.language`, `window.location` redirects, `setTimeout` delays and scrolling to page sections. A stored value, a browser tag or a redirect target is a parameter or a result. A timer that fires is an event.
- Translation entries: the tables in `components/language-provider.tsx` are parameters.
- LanguageProvider.Translate: does not model JavaScript's `in` finding inherited object properties (a key such as "constructor"), since the model's tables are plain maps.
- Guide.SolutionLabel: does not model the same prototype lookup in `solutionLabels[...]`.
- Floating point: prices are exact cents. `Math.round` is exact half-up rounding. For the catalog's amounts this agrees with the page's doubles, but the model does not prove that agreement.
- Carousel.Carousel.HandleScroll: the index a scroll position rounds to (`Math.round(scrollLeft / width)`) is an input. It is not derived from pixel values.
- Carousel.Carousel.HandleTouchEnd: the swipe's distance is an input. It is not derived from touch coordinates. The 100 ms `setTimeout` before the report (components/ui/carousel.tsx:85-89) is folded into the touch-end event, so the reported index is the input given with that event, and nothing can happen in between.
- The pricing page's layout state (accordion openings, carousel slides used only for display) and its texts are not modelled. The mobile slide handlers are modelled as the clicks they stand for.
- `handlePredefinedPackageRequest` (app/pricing/page.tsx:501-515) is never called, so it is not modelled. The clientType effect (493-498) has no observable effect.
- The step-1 error of the pricing stepper ("Please select a client type first") cannot occur, because a client type is always set. `StepperClick` keeps the branch, and `ContinueNeverBlocked` shows the same for "continue".
- Contact.Post: a JSON body that is not an object is folded into `Unparseable`, with its TypeError text as the reason.
- FormSubmission.Post: a JSON body that is not an object, or a `formData` that is an array, number, string or boolean, is not modelled. A body is either unparseable or has `formData` missing, null or a record of the modelled fields.
- Js.Value: it has only undefined, null, booleans, strings and integer numbers. Objects, arrays and non-integer numbers a client may send in any field are not modelled. So the following are left out:
  - their `${v}` rendering ("[object Object]", "1,2", "1.5");
  - their truthiness (`[]` and `{}` are truthy);
  - the "replace is not a function" TypeError that `message` or `projectDescription` of such a value throws (app/api/form-submission/route.ts:118, 137, 187, 201).
- Guide.Wizard.Submit: does not model the browser's constraint validation of the dialog's `<form>` (app/guide/page.tsx:732), which blocks a submission whose `type="email"` field (755) is not an e-mail address, or whose non-empty `type="url"` field (799) is not a URL, before `handleSubmit` runs. The model submits any non-empty e-mail and any URL.
- The guide's dialog summary and other texts are not modelled.

Where the model follows the code rather than the design's wording:

- Packages that become incompatible after a technology change stay selected and are still priced. Only clicks are filtered (`IncompatibleClicksIgnored`).
- A technology chosen for custom-made outlives a later change of tier (`ConsultationTechnologyOutlivesTier`).
- MVP stays selected after a switch away from companies (`MvpStaysSelected`).
- A company's bundle card shows the monthly 9.99 unrounded, where the effect shows 10 (`CardMonthlyForCompanyIsUnrounded`).
- The guide always posts `language: "en"`, so its mails are English even on the Dutch site (`RequestIsEnglish`).
