# Quote pricing and estimation, modelled in Dafny

This project models the quote layer of a web site that sells line painting for parking lots, epoxy floor coating and interior/exterior painting. The layer has these parts:

- **Parking estimator and lane price.** The estimator turns a measured lot area into counts of regular, disabled and EV-charging spots. The lane price multiplies those counts by per-spot prices and raises a positive result to a minimum call-out fee. A short summary string goes with the counts.
- **Epoxy calculator.** It resolves every unit price from an optional table of pricing rules, falling back to a default. The base rate comes from the chosen material. A material outside the catalog falls back to an area band. Per-area surcharges are added when their condition or option is chosen, and the colour-mixing fee is flat. The subtotal then gets the minimum service fee.
- **Paint calculator.** The base rate depends on the paint type. Three independent per-area add-ons are summed with it, and there is no minimum fee.
- **Epoxy option catalog.** It lists the materials, finishes and colours, with lookup helpers and the rule that decides when a colour costs a mixing fee.
- **Admin route guard.** It decides, from the request path and whether a user is signed in, whether to let the request through or redirect it.
- **Admin pricing table.** Two list operations: grouping the rules by service and then by category, and replacing a rule's value by id after a save.

Modules, one per file:

| module | file | models |
|---|---|---|
| `Wrappers` | wrappers.dfy | `Option`, for an absent rule table, a missing catalog entry and an unparsable number |
| `PricingRules` | pricing_rules.dfy | the pricing-rule record and the first-match lookup with a fallback, shared by the epoxy and paint calculators |
| `Fees` | fees.dfy | the minimum-fee floor, shared by the lane and epoxy quotes |
| `Text` | text.dfy | decimal numerals and `join`, used by the parking summary |
| `Parking` | parking.dfy | `parkingCalculator.ts` |
| `FloorMaterials` | floor_materials.dfy | `floorMaterials.ts` |
| `Epoxy` | epoxy.dfy | `epoxyPriceCalculator.ts` |
| `Paint` | paint.dfy | `paintPriceCalculator.ts` |
| `AdminGuard` | middleware.dfy | `middleware.ts` |
| `PricingManager` | pricing_manager.dfy | the reducers and the `handleSave` update in `PricingManager.tsx` |

Areas and money are `real`, so arithmetic is exact. `Math.floor` is `.Floor` and `Math.ceil` is written out from it. Spot counts are `int`.

The epoxy defaults that a missing rule falls back to are `MATERIAL_PRICES`, `FLOOR_QUALITY`, `CRACK_CONDITION`, `ANTI_SLIP`, `SURFACE_PROTECTION`, `SELF_LEVELING_PRICE`, `COLOR_MIXING_FEE` and `MIN_SERVICE_FEE`. They are imported from a revision of `floorMaterials.ts` that defines them, and that revision is not part of this model. The model therefore takes them as a `Defaults` parameter. The four area-band rates are written in the calculator itself, and the model uses those literal values.

The parking model follows `parkingCalculator.ts` as written. Code elsewhere in the repository expects a richer version of it:

- `src/features/landing/components/QuickQuoteCalculator.tsx:63` calls `calculateParkingSpots(areaNum, "ground")`, and `src/features/quote/actions.ts:20` declares `locationType: "ground" | "underground"`. The modelled `calculateParkingSpots` takes the area alone and uses 30 m² per spot for every site.
- `src/features/quote/actions.ts:28-31` stores a bracket flat cost (`base_cost`) and a `needs_consultation` flag for more than 200 spots, and `src/features/quote/components/EstimatedPrice.tsx:13` reads `priceResult.needsConsultation`. The modelled `calculateEstimatedPrice` multiplies per-spot prices, applies a minimum fee and sets no such flag.

## Model

| member | source | states |
|---|---|---|
| PricingRules.FindFirst | src/features/quote/utils/epoxyPriceCalculator.ts:58 | The index found is the first row the query accepts (no earlier row matches); there is no index exactly when no row matches, as `find` returns `undefined`. |
| PricingRules.Lookup | src/features/quote/utils/epoxyPriceCalculator.ts:56-60 | With no rule table, or no accepted row, the price is the fallback; otherwise it is the value of the first accepted row. It never fails. |
| PricingRules.LookupFirstRowMatches | src/features/quote/utils/epoxyPriceCalculator.ts:58-59 | When the first row is accepted, its value is the price. |
| PricingRules.LookupSkipsFirstRow | src/features/quote/utils/epoxyPriceCalculator.ts:58-59 | A first row that is not accepted is skipped: the price is that of the rest of the table. |
| PricingRules.LookupIgnoresOtherRows | src/features/quote/utils/epoxyPriceCalculator.ts:58 | Inserting a row the query does not accept anywhere in the table (front, middle or end) does not change the price. |
| PricingRules.SingleRuleOverrides | src/features/quote/utils/epoxyPriceCalculator.ts:59 | A matching rule replaces the fallback with its own value. |
| Fees.Max | src/features/quote/utils/parkingCalculator.ts:132 | `Math.max`: the result is at least both arguments and equal to one of them. |
| Fees.ApplyMinimum | src/features/quote/utils/epoxyPriceCalculator.ts:160-162 | A subtotal ≤ 0 gives total 0. A positive subtotal gives a total that is at least both the subtotal and the minimum, and equal to one of them. The minimum is applied exactly when 0 < subtotal < minimum, and then the total is the minimum. |
| Fees.ApplyMinimumIdempotent | src/features/quote/utils/parkingCalculator.ts:131-132 | Applying the floor to an already floored total gives the same total. |
| Fees.ApplyMinimumMonotone | src/features/quote/utils/parkingCalculator.ts:131-132 | With a non-negative minimum, a larger subtotal never gives a smaller total. |
| Text.NatToString | src/features/quote/utils/parkingCalculator.ts:83 | An interpolated count is a non-empty string of decimal digits with no leading zero. |
| Text.ParseNatToString | src/features/quote/utils/parkingCalculator.ts:83 | Reading back the numeral of `n` gives `n` (round trip). |
| Text.Join | src/features/quote/utils/parkingCalculator.ts:92 | Joining nothing gives "". Otherwise the length is the sum of the parts plus one separator between each pair. |
| Text.JoinPartAt | src/features/quote/utils/parkingCalculator.ts:92 | Part `k` appears unchanged in the joined string at its offset, after every earlier part and its separator. |
| Text.JoinSepAfter | src/features/quote/utils/parkingCalculator.ts:92 | Between part `k` and part `k + 1` stands exactly the separator. |
| Text.JoinPartOccurs | src/features/quote/utils/parkingCalculator.ts:92 | Every part occurs in the joined string. |
| Text.JoinThree | src/features/quote/utils/parkingCalculator.ts:92 | Three parts join as first, separator, second, separator, third. |
| Parking.Ceil | src/features/quote/utils/parkingCalculator.ts:46 | The result is the least integer not below `x`. |
| Parking.Reserved | src/features/quote/utils/parkingCalculator.ts:44-52 | Below the threshold nothing is reserved. From the threshold on, the count is the least one covering `ratio·total`, and at least 1. |
| Parking.CalculateParkingSpots | src/features/quote/utils/parkingCalculator.ts:31-63 | All counts are ≥ 0, and regular + disabled + EV == total. An area under 30 m² (negative included) gives all zeros. The total is the number of whole 30 m² bays. Disabled spots are 0 below 10 bays, otherwise the least count covering 3% and at least 1. EV spots are 0 below 20, otherwise the least count covering 5% and at least 1. |
| Parking.CalculateEstimatedPrice | src/features/quote/utils/parkingCalculator.ts:99-140 | The subtotal is 30000·regular + 50000·disabled + 50000·EV. A subtotal ≤ 0 gives total 0. A positive one gives total max(subtotal, 300000), so at least 300000 and at least the subtotal. `isMinimumApplied` holds exactly when 0 < subtotal < 300000, and then the total is 300000. This is exactly when the total differs from a positive subtotal. |
| Parking.QuoteForArea | src/features/quote/utils/parkingCalculator.ts:31-140 | For an area-derived estimate, the total is 0 exactly when no bay fits. The minimum applies exactly for 1 to 9 bays. Every reserved spot costs 20000 more than a regular one. |
| Parking.ThresholdBoundaries | src/features/quote/utils/parkingCalculator.ts:44-55 | Boundary cases: 270 m² gives (9, 9, 0, 0); 300 m² gives (10, 9, 1, 0); 599 m² gives no EV spot; 600 m² gives (20, 18, 1, 1). |
| Parking.SummaryItems | src/features/quote/utils/parkingCalculator.ts:80-90 | The total, disabled and EV segments each appear exactly when that count is positive. Each carries its own count, and they come in the order total, disabled, EV. |
| Parking.RenderReadsBack | src/features/quote/utils/parkingCalculator.ts:82-90 | A segment starts with its label ("총 ", "장애인 " or "전기차 ") and ends with "대". The text between is a decimal numeral that reads back as the segment's count. |
| Parking.RenderAll | src/features/quote/utils/parkingCalculator.ts:80-90 | One line per summary item, in the same order, each the item rendered. |
| Parking.GetParkingSummary | src/features/quote/utils/parkingCalculator.ts:79-93 | The summary is "" exactly when no count is positive. With a positive total it starts with "총 N대". |
| Parking.SegmentOccurs | src/features/quote/utils/parkingCalculator.ts:79-93 | Every summary item occurs, rendered, in the summary text. |
| Parking.ReservedSegmentsShown | src/features/quote/utils/parkingCalculator.ts:85-90 | A positive disabled count puts "장애인 N대" into the summary, and a positive EV count puts "전기차 N대" there. |
| Parking.TwentyBayLines | src/features/quote/utils/parkingCalculator.ts:82-90 | The items (20 total, 1 disabled, 1 EV) render as "총 20대", "장애인 1대" and "전기차 1대". |
| Parking.SummaryExample | src/features/quote/utils/parkingCalculator.ts:79-93 | (20, 18, 1, 1) is summarised as "총 20대" + " / " + "장애인 1대" + " / " + "전기차 1대", and all zeros as "". |
| FloorMaterials.FindMaterial | src/features/quote/data/floorMaterials.ts:169-171 | A found entry has the requested id and is in the catalog. Nothing is found exactly when no entry has the id. |
| FloorMaterials.GetMaterialById | src/features/quote/data/floorMaterials.ts:62-96 | Every material id has a catalog entry with that id. |
| FloorMaterials.CatalogEntryUnique | src/features/quote/data/floorMaterials.ts:6-10 | Each of the four material ids appears in the catalog exactly once. |
| FloorMaterials.BaseColorsAreAllowed | src/features/quote/data/floorMaterials.ts:76-77 | Every base colour of a material is one of its allowed colours. |
| FloorMaterials.FinishOptions | src/features/quote/data/floorMaterials.ts:178-181 | Each finish id becomes an option in the same position, named and described from `FINISHES`. |
| FloorMaterials.GetFinishesForMaterial | src/features/quote/data/floorMaterials.ts:174-182 | The material's allowed finishes, in the same order and number, with names and descriptions from `FINISHES`. |
| FloorMaterials.ColorOptions | src/features/quote/data/floorMaterials.ts:189-193 | Each colour id becomes an option in the same position, named and coloured from `COLORS`. A colour is a base colour exactly when there is no base list or it is on the list. |
| FloorMaterials.GetColorsForMaterial | src/features/quote/data/floorMaterials.ts:185-194 | The material's allowed colours, in the same order and number, with names and hex from `COLORS`. Every colour is a base colour when the material has no base list; otherwise exactly the listed ones are. |
| FloorMaterials.RequiresColorMixingFee | src/features/quote/data/floorMaterials.ts:197-202 | No fee for a material without base colours. Otherwise a fee exactly when the colour is not a base colour. |
| FloorMaterials.IsBaseIffNoFee | src/features/quote/data/floorMaterials.ts:192-202 | For a catalog material, the `isBaseColor` test (`?? true`) holds for a colour exactly when `requiresColorMixingFee` is false for it. |
| FloorMaterials.FeeIffNotBaseColor | src/features/quote/data/floorMaterials.ts:185-202 | For every colour a material offers, a fee is due exactly when the colour is not flagged as a base colour. |
| FloorMaterials.MixingFeeByMaterial | src/features/quote/data/floorMaterials.ts:71-77 | Solid epoxy in gray or green costs no fee, while blue, red, yellow and black do. No other material ever charges one. |
| Epoxy.EpoxyPrice | src/features/quote/utils/epoxyPriceCalculator.ts:56-60 | The value of the first "epoxy" rule with the given category and key, or the fallback when there is no table or no such rule. |
| Epoxy.EpoxyPriceIgnoresOtherServices | src/features/quote/utils/epoxyPriceCalculator.ts:58 | A rule of another service, inserted anywhere in the table, never changes an epoxy price. |
| Epoxy.ResolveRates | src/features/quote/utils/epoxyPriceCalculator.ts:80-102 | Without a rule table, every unit price is its default: 65000/45000/40000/35000 for the area bands, and the `Defaults` value for each material and option. |
| Epoxy.ResolveRatesByKey | src/features/quote/utils/epoxyPriceCalculator.ts:80-102 | For every rule table and every unit price, the price is the value of the first "epoxy" rule with that price's own category and key. It is the price's default when there is no table or no such rule. |
| Epoxy.RateIsEpoxyPrice | src/features/quote/utils/epoxyPriceCalculator.ts:80-102 | Each resolved unit price is the lookup of its own category and key, with its own default. |
| Epoxy.RateKeysDistinct | src/features/quote/utils/epoxyPriceCalculator.ts:80-102 | No two unit prices share a category and key, so one rule sets at most one price. |
| Epoxy.BaseRatePerM2 | src/features/quote/utils/epoxyPriceCalculator.ts:104-126 | A catalog material uses its own rate whatever the area. Any other material uses the band of its area: ≥ 500, [300, 500), [101, 300) or < 101. |
| Epoxy.QuoteWithRates | src/features/quote/utils/epoxyPriceCalculator.ts:104-177 | The base price is the base rate × area. Each surcharge is rate × area only when its condition or option is chosen, and 0 otherwise; the colour fee is flat. The subtotal is the sum of the seven components. The minimum-fee relations of `Fees.ApplyMinimum` hold with the resolved minimum. |
| Epoxy.QuoteWithRatesPricedAt | src/features/quote/utils/epoxyPriceCalculator.ts:132-148 | The surcharge switches are read off the request. The quality surcharge is charged only for "poor" quality and the crack surcharge only for "severe" cracks. Anti-slip, surface protection and self-levelling are charged per m² only when ticked, and the colour fee only when requested. The total is max(subtotal, minimum) for a positive subtotal and 0 otherwise. |
| Epoxy.CalculateEpoxyPrice | src/features/quote/utils/epoxyPriceCalculator.ts:65-177 | The quote is priced at the unit prices resolved from the rules, with each line read off the request as above. Without rules, a catalog material is priced at its default rate and any other material at its band's default rate, and the minimum applied is the default service fee. |
| Epoxy.FloorConditionIgnored | src/features/quote/utils/epoxyPriceCalculator.ts:65-77 | Changing the legacy floor condition changes no field of the quote. |
| Epoxy.OtherGradesAddNothing | src/features/quote/utils/epoxyPriceCalculator.ts:132-135 | Quality other than poor and cracks other than severe give the same quote as leaving both unset. |
| Epoxy.ColorMixingFeeIsFlat | src/features/quote/utils/epoxyPriceCalculator.ts:148 | The colour-mixing fee does not depend on the area. |
| Epoxy.SubtotalSplitsOffAntiSlip | src/features/quote/utils/epoxyPriceCalculator.ts:150-157 | The subtotal is the anti-slip price added to charges that do not depend on the anti-slip switch. |
| Epoxy.AntiSlipNeverLowersSubtotal | src/features/quote/utils/epoxyPriceCalculator.ts:138-157 | With a non-negative area and anti-slip rate, switching anti-slip on never lowers the subtotal. |
| Epoxy.AntiSlipNeverLowersTotal | src/features/quote/utils/epoxyPriceCalculator.ts:138-162 | With a non-negative area, anti-slip rate and minimum fee, switching anti-slip on never lowers the total. |
| Epoxy.AntiSlipRuleOverrides | src/features/quote/utils/epoxyPriceCalculator.ts:96 | An "epoxy/option/anti_slip" rule sets the anti-slip rate; without rules the default applies. |
| Epoxy.EmptyJobCostsNothing | src/features/quote/utils/epoxyPriceCalculator.ts:160-162 | A zero area with no colour fee gives total 0, without the minimum. |
| Epoxy.SolidEpoxyExample | src/features/quote/utils/epoxyPriceCalculator.ts:111-162 | 100 m² of solid epoxy at 45000 with no options gives 4,500,000, above the minimum. |
| Epoxy.SmallUnknownJobExample | src/features/quote/utils/epoxyPriceCalculator.ts:120-162 | 2 m² of an unlisted material uses the under-100 band (subtotal 130,000) and is raised to the 300,000 minimum. |
| Paint.PaintPrice | src/features/quote/utils/paintPriceCalculator.ts:26-30 | The value of the first "paint" rule in category "area_base" or "option" with the key, or the fallback. |
| Paint.PaintPriceIgnoresForeignRules | src/features/quote/utils/paintPriceCalculator.ts:28 | A rule of another service, or of any other category, inserted anywhere in the table, never changes a paint price. |
| Paint.OptionRuleCanSetBaseRate | src/features/quote/utils/paintPriceCalculator.ts:28-33 | The category does not separate base rates from add-ons: an "option" rule keyed "interior" sets the interior rate. |
| Paint.ResolvePaintRates | src/features/quote/utils/paintPriceCalculator.ts:32-38 | Without rules, the rates are 25000 (interior), 35000 (exterior), 10000 (waterproof), 15000 (fireproof) and 5000 (putty). |
| Paint.ResolvePaintRatesByKey | src/features/quote/utils/paintPriceCalculator.ts:26-38 | For every rule table and every rate, the rate is the value of the first "paint" rule in "area_base" or "option" with that rate's key. It is the rate's default when there is no table or no such rule. |
| Paint.RateIsPaintPrice | src/features/quote/utils/paintPriceCalculator.ts:32-38 | Each resolved rate is the lookup of its own key, with its own default. |
| Paint.PaintRateKeysDistinct | src/features/quote/utils/paintPriceCalculator.ts:32-38 | No two rates share a key, so one rule sets at most one rate. |
| Paint.AddOns.With | src/features/quote/utils/paintPriceCalculator.ts:8-10 | Setting one add-on switch leaves the other two as they were. |
| Paint.QuotePaint | src/features/quote/utils/paintPriceCalculator.ts:32-45 | The base rate depends on the paint type alone. Every add-on costs unit × area when chosen and 0 otherwise. The total is the plain sum, with no floor. |
| Paint.QuotePaintPricedAt | src/features/quote/utils/paintPriceCalculator.ts:32-45 | At any rates, the per-m² base rate is the rate of the paint type and the base price is that rate × area. Each add-on costs its unit × area when chosen and 0 otherwise, and the total is their sum. |
| Paint.CalculatePaintPrice | src/features/quote/utils/paintPriceCalculator.ts:23-55 | The quote is priced as above at the rates resolved from the rules. |
| Paint.DefaultPaintQuote | src/features/quote/utils/paintPriceCalculator.ts:32-45 | Without rules, the base rate is 25000 or 35000 by type, and each chosen add-on costs 10000, 15000 or 5000 per m². |
| Paint.ToggleOnlyMovesItsOwnPrice | src/features/quote/utils/paintPriceCalculator.ts:41-45 | Switching one add-on on moves only its own component, from 0 to unit × area, and the total by the same amount. |
| Paint.NoMinimumFee | src/features/quote/utils/paintPriceCalculator.ts:45 | A zero area costs 0 whatever is chosen. |
| AdminGuard.StartsWithPointwise | src/middleware.ts:41 | The `startsWith` test holds exactly when the path is at least as long as the prefix and agrees with it character by character. |
| AdminGuard.Middleware | src/middleware.ts:40-57 | A path outside "/admin" always passes. "/admin/login" redirects a signed-in user to "/admin" and lets anyone else in. Any other admin path passes exactly when the user is signed in, and otherwise redirects to "/admin/login". |
| AdminGuard.NoRedirectLoop | src/middleware.ts:43-54 | Following a redirect with the same session never redirects again. |
| AdminGuard.AdminPagesNeedSession | src/middleware.ts:52-54 | A request reaching an admin page other than the login page comes from a signed-in user. |
| AdminGuard.PrefixIsTextual | src/middleware.ts:41 | The guard is a string-prefix test: "/administrator" is guarded, while "/about" is not. |
| PricingManager.AddToGroup | src/features/admin/components/PricingManager.tsx:35-40 | One reduce step keeps the keys distinct and in order. The rule is appended to the group of its key, or opens a new last group when none exists. The total size grows by one. |
| PricingManager.GroupRules | src/features/admin/components/PricingManager.tsx:35-40 | The groups have distinct keys. Each holds exactly the rules of its key, in their original order, and is non-empty. Every rule's key has a group. The group sizes sum to the list length. |
| PricingManager.GroupStep | src/features/admin/components/PricingManager.tsx:35-40 | One reduce step turns a grouping of a prefix into a grouping of the prefix plus the next rule. |
| PricingManager.SelectMembers | src/features/admin/components/PricingManager.tsx:37-38 | A rule is in the group of a key exactly when it is in the list and has that key. |
| PricingManager.RuleInOwnGroup | src/features/admin/components/PricingManager.tsx:35-40 | In any grouping, every listed rule sits in the group of its own key. |
| PricingManager.RuleOnlyInOwnGroup | src/features/admin/components/PricingManager.tsx:35-40 | In any grouping, a group holds only listed rules of its own key. |
| PricingManager.EachRuleInExactlyOneGroup | src/features/admin/components/PricingManager.tsx:88-94 | Grouping puts each rule into exactly one group: the one keyed by its own service (or category). |
| PricingManager.UpdateValue | src/features/admin/components/PricingManager.tsx:63 | Length and order are kept. Rules with another id are unchanged. A rule with the id changes only its value. |
| PricingManager.HandleSave | src/features/admin/components/PricingManager.tsx:52-74 | An unparsable edit or a rejected save leaves the table unchanged. Otherwise only the value of the matching rule changes, and the id, service, category and key of every row are kept. |

## Left out

- Formatted strings are not modelled: `formatted` in the lane price, `formatPriceToMan`, `formatArea`, `formatPrice` (both calculators), and `sqmToPyeong`/`pyeongToSqm`. They depend on `toLocaleString` output or on floating-point rounding.
- Floating point is idealised: areas and prices are exact reals, so `ceil(total·0.03)` and `basePricePerM2 × area` carry no rounding error.
- Epoxy.CalculateEpoxyPrice: the default unit prices are a parameter, because the constants it falls back to are defined in a revision of `floorMaterials.ts` that is not part of this model. Its contract prices the quote at the resolved rates through `Epoxy.PricedAt`. Which rule sets which rate is stated by `Epoxy.ResolveRatesByKey`.
- An unlisted epoxy material with an area strictly between 100 and 101 m² is priced in the under-100 band, because the code tests `area >= 101`. The model keeps this as written rather than guessing an intended band.
- Parking.GetParkingSummary: its contract states when the summary is empty and that it opens with the total segment. `Parking.SummaryItems` states which segments appear and in what order. `Parking.SegmentOccurs` and `Parking.ReservedSegmentsShown` state that each appears in the text, and `Text.JoinPartAt` and `Text.JoinSepAfter` give the layout. The full text is pinned only by the example in `Parking.SummaryExample`.
- `Number(rule.value)` is taken to be a number already: a rule's value is a `real`.
- `thumbnail`, `MATERIAL_IMAGES` and `SELF_LEVELING` in the catalog are display metadata with no logic. They are not modelled.
- `PricingRule` has an optional `unit` field that no modelled operation reads, so it is not modelled.
- The middleware's session lookup through Supabase, its cookie handling and the `config.matcher` pattern are I/O and framework routing. The session is reduced to a `signedIn` flag.
- `handleSave`: `parseFloat` is reduced to an `Option<real>` (None for NaN), and the `updatePricingRule` call to a flag saying whether the store accepted the value. A thrown error is the same as a rejection. The editing, alert and refresh state of the component is UI.
- PricingManager.GroupRules: groups keep their keys in order of first appearance, like `Object.entries` on string keys. The object's own ordering of integer-like keys, which come first in ascending order, is not modelled. A service type or category that names a member inherited from `Object.prototype` (`"constructor"`, `"toString"`, `"__proto__"`, …) finds `acc[k]` already set, so `acc[k].push` throws a TypeError and the page fails to render; the model groups such keys like any other key.
- PricingManager.AddToGroup: appends to a fresh group for every key, including the inherited `Object.prototype` names for which the source's `acc[k].push` throws, as described for GroupRules above.
- Polygon area, tiered lane pricing with a consultation cut-off, price ranges shown on the landing page, and all UI components, server actions and the chat client lie outside the pricing layer modelled here.
