/**
 * Epoxy flooring quotes: a base rate chosen by material (with an area-band
 * fallback for unrecognised materials), per-area surcharges switched on by
 * floor condition and options, a flat colour-mixing fee, and a minimum
 * service fee on the subtotal. Every unit price can be overridden by an
 * "epoxy" pricing rule.
 */
module Epoxy {
  import opened Wrappers
  import opened PricingRules
  import opened FloorMaterials
  import Fees

  /**
   * The material a quote asks for. Callers may pass an id outside the
   * catalog (an untyped value from the quick-quote widget), hence `Other`.
   */
  datatype EpoxyMaterial = Known(id: MaterialId) | Other

  datatype FloorQuality = Good | Normal | Poor

  datatype CrackCondition = Minor | Moderate | Severe

  datatype EpoxyQuoteInput = EpoxyQuoteInput(
    materialId: EpoxyMaterial,
    area: real,
    /** Legacy field: accepted, never read. */
    floorCondition: Option<string>,
    floorQuality: Option<FloorQuality>,
    crackCondition: Option<CrackCondition>,
    includeAntiSlip: bool,
    includeSurfaceProtection: bool,
    includeSelfLeveling: bool,
    needsColorMixingFee: bool,
    pricingRules: Option<seq<PricingRule>>
  )

  /**
   * The hard-coded unit prices a missing rule falls back to. Their values live
   * outside the calculator, so they are a parameter here.
   */
  datatype Defaults = Defaults(
    transparentEpoxy: real,
    solidEpoxy: real,
    beanGravel: real,
    urethaneWaterproof: real,
    qualityPoor: real,
    crackSevere: real,
    antiSlip: real,
    surfaceProtection: real,
    selfLeveling: real,
    colorMixing: real,
    minServiceFee: real
  )

  /** Area-band fallback rates, used only for materials outside the catalog. */
  const AreaUnder100Default: real := 65000.0
  const Area101To299Default: real := 45000.0
  const Area300To499Default: real := 40000.0
  const AreaOver500Default: real := 35000.0

  /** The unit prices of one quote, after rule overrides. */
  datatype Rates = Rates(
    areaUnder100: real,
    area101To299: real,
    area300To499: real,
    areaOver500: real,
    transparentEpoxy: real,
    solidEpoxy: real,
    beanGravel: real,
    urethaneWaterproof: real,
    qualityPoor: real,
    crackSevere: real,
    antiSlip: real,
    surfaceProtection: real,
    selfLeveling: real,
    colorMixing: real,
    minFee: real
  )

  /** The itemised quote; every component is exposed for display. */
  datatype PriceBreakdown = PriceBreakdown(
    basePricePerM2: real,
    basePrice: real,
    floorQualityPrice: real,
    crackRepairPrice: real,
    antiSlipPrice: real,
    surfaceProtectionPrice: real,
    selfLevelingPricePerM2: real,
    selfLevelingPrice: real,
    colorMixingFee: real,
    subtotal: real,
    isMinFeeApplied: bool,
    total: real
  )

  /**
   * `getPrice`: the value of the first "epoxy" rule with this category and
   * key, or `fallback`. Rules of other services are never consulted.
   */
  function EpoxyPrice(rules: Option<seq<PricingRule>>, category: string, key: string, fallback: real): (p: real)
    ensures rules.None? ==> p == fallback
    ensures rules.Some? && NoMatch(rules.value, Exact("epoxy", category, key)) ==> p == fallback
    ensures forall i :: rules.Some? && IsFirstMatch(rules.value, Exact("epoxy", category, key), i)
              ==> p == rules.value[i].value && rules.value[i].serviceType == "epoxy"
                  && rules.value[i].category == category && rules.value[i].key == key
  {
    Lookup(rules, Exact("epoxy", category, key), fallback)
  }

  /** A rule of another service, inserted anywhere in the table, never changes an epoxy price. */
  lemma EpoxyPriceIgnoresOtherServices(front: seq<PricingRule>, other: PricingRule, back: seq<PricingRule>,
                                       category: string, key: string, fallback: real)
    requires other.serviceType != "epoxy"
    ensures EpoxyPrice(Some(front + [other] + back), category, key, fallback)
            == EpoxyPrice(Some(front + back), category, key, fallback)
  {
    LookupIgnoresOtherRows(front, other, back, Exact("epoxy", category, key), fallback);
  }

  /** The rule key of a catalog material under category "material_base". */
  function MaterialKey(id: MaterialId): string {
    match id
    case TransparentEpoxy => "transparent_epoxy"
    case SolidEpoxy => "solid_epoxy"
    case BeanGravel => "bean_gravel"
    case UrethaneWaterproof => "urethane_waterproof"
  }

  function MaterialDefault(d: Defaults, id: MaterialId): real {
    match id
    case TransparentEpoxy => d.transparentEpoxy
    case SolidEpoxy => d.solidEpoxy
    case BeanGravel => d.beanGravel
    case UrethaneWaterproof => d.urethaneWaterproof
  }

  function MaterialRate(rates: Rates, id: MaterialId): real {
    match id
    case TransparentEpoxy => rates.transparentEpoxy
    case SolidEpoxy => rates.solidEpoxy
    case BeanGravel => rates.beanGravel
    case UrethaneWaterproof => rates.urethaneWaterproof
  }

  /** Every unit price of a quote, each looked up independently with its own default. */
  function ResolveRates(rules: Option<seq<PricingRule>>, d: Defaults): (rates: Rates)
    ensures rules.None? ==>
              && rates.areaUnder100 == AreaUnder100Default && rates.area101To299 == Area101To299Default
              && rates.area300To499 == Area300To499Default && rates.areaOver500 == AreaOver500Default
              && (forall id :: MaterialRate(rates, id) == MaterialDefault(d, id))
              && rates.qualityPoor == d.qualityPoor && rates.crackSevere == d.crackSevere
              && rates.antiSlip == d.antiSlip && rates.surfaceProtection == d.surfaceProtection
              && rates.selfLeveling == d.selfLeveling && rates.colorMixing == d.colorMixing
              && rates.minFee == d.minServiceFee
  {
    Rates(
      EpoxyPrice(rules, "area_base", "area_under_100", AreaUnder100Default),
      EpoxyPrice(rules, "area_base", "area_101_299", Area101To299Default),
      EpoxyPrice(rules, "area_base", "area_300_499", Area300To499Default),
      EpoxyPrice(rules, "area_base", "area_over_500", AreaOver500Default),
      EpoxyPrice(rules, "material_base", MaterialKey(TransparentEpoxy), d.transparentEpoxy),
      EpoxyPrice(rules, "material_base", MaterialKey(SolidEpoxy), d.solidEpoxy),
      EpoxyPrice(rules, "material_base", MaterialKey(BeanGravel), d.beanGravel),
      EpoxyPrice(rules, "material_base", MaterialKey(UrethaneWaterproof), d.urethaneWaterproof),
      EpoxyPrice(rules, "option", "quality_poor", d.qualityPoor),
      EpoxyPrice(rules, "option", "crack_severe", d.crackSevere),
      EpoxyPrice(rules, "option", "anti_slip", d.antiSlip),
      EpoxyPrice(rules, "option", "surface_protection", d.surfaceProtection),
      EpoxyPrice(rules, "option", "self_leveling", d.selfLeveling),
      EpoxyPrice(rules, "option", "color_mixing", d.colorMixing),
      EpoxyPrice(rules, "option", "min_fee", d.minServiceFee)
    )
  }

  /** The fifteen unit prices a rule table can set, each under its own category and key. */
  datatype RateKey =
    | AreaUnder100 | Area101To299 | Area300To499 | AreaOver500
    | MaterialBase(id: MaterialId)
    | QualityPoor | CrackSevere | AntiSlip | SurfaceProtection | SelfLeveling | ColorMixing | MinFee

  function CategoryOf(k: RateKey): string {
    match k
    case AreaUnder100 | Area101To299 | Area300To499 | AreaOver500 => "area_base"
    case MaterialBase(_) => "material_base"
    case _ => "option"
  }

  function KeyOf(k: RateKey): string {
    match k
    case AreaUnder100 => "area_under_100"
    case Area101To299 => "area_101_299"
    case Area300To499 => "area_300_499"
    case AreaOver500 => "area_over_500"
    case MaterialBase(id) => MaterialKey(id)
    case QualityPoor => "quality_poor"
    case CrackSevere => "crack_severe"
    case AntiSlip => "anti_slip"
    case SurfaceProtection => "surface_protection"
    case SelfLeveling => "self_leveling"
    case ColorMixing => "color_mixing"
    case MinFee => "min_fee"
  }

  /** The price a key falls back to when no rule sets it. */
  function DefaultOf(d: Defaults, k: RateKey): real {
    match k
    case AreaUnder100 => AreaUnder100Default
    case Area101To299 => Area101To299Default
    case Area300To499 => Area300To499Default
    case AreaOver500 => AreaOver500Default
    case MaterialBase(id) => MaterialDefault(d, id)
    case QualityPoor => d.qualityPoor
    case CrackSevere => d.crackSevere
    case AntiSlip => d.antiSlip
    case SurfaceProtection => d.surfaceProtection
    case SelfLeveling => d.selfLeveling
    case ColorMixing => d.colorMixing
    case MinFee => d.minServiceFee
  }

  /** The field of `rates` a key names. */
  function RateOf(rates: Rates, k: RateKey): real {
    match k
    case AreaUnder100 => rates.areaUnder100
    case Area101To299 => rates.area101To299
    case Area300To499 => rates.area300To499
    case AreaOver500 => rates.areaOver500
    case MaterialBase(id) => MaterialRate(rates, id)
    case QualityPoor => rates.qualityPoor
    case CrackSevere => rates.crackSevere
    case AntiSlip => rates.antiSlip
    case SurfaceProtection => rates.surfaceProtection
    case SelfLeveling => rates.selfLeveling
    case ColorMixing => rates.colorMixing
    case MinFee => rates.minFee
  }

  /**
   * For any rule table, each resolved price is the value of the first
   * "epoxy" rule with its own category and key, and its default when there is
   * no table or no such rule.
   */
  lemma ResolveRatesByKey(rules: Option<seq<PricingRule>>, d: Defaults, k: RateKey)
    ensures rules.None? ==> RateOf(ResolveRates(rules, d), k) == DefaultOf(d, k)
    ensures rules.Some? && NoMatch(rules.value, Exact("epoxy", CategoryOf(k), KeyOf(k))) ==>
              RateOf(ResolveRates(rules, d), k) == DefaultOf(d, k)
    ensures forall i :: rules.Some? && IsFirstMatch(rules.value, Exact("epoxy", CategoryOf(k), KeyOf(k)), i) ==>
              RateOf(ResolveRates(rules, d), k) == rules.value[i].value
  {
    RateIsEpoxyPrice(rules, d, k);
  }

  /** Each resolved price is the lookup of its own (category, key) with its own default. */
  lemma RateIsEpoxyPrice(rules: Option<seq<PricingRule>>, d: Defaults, k: RateKey)
    ensures RateOf(ResolveRates(rules, d), k) == EpoxyPrice(rules, CategoryOf(k), KeyOf(k), DefaultOf(d, k))
  {
    match k
    case MaterialBase(id) => {
      match id
      case TransparentEpoxy =>
      case SolidEpoxy =>
      case BeanGravel =>
      case UrethaneWaterproof =>
    }
    case _ =>
  }

  /** No two prices share a (category, key): a rule sets at most one of them. */
  lemma RateKeysDistinct(k1: RateKey, k2: RateKey)
    requires k1 != k2
    ensures CategoryOf(k1) != CategoryOf(k2) || KeyOf(k1) != KeyOf(k2)
  {
  }

  /**
   * The base rate per square metre: a catalog material's own rate whatever
   * the area; for anything else, the rate of the area band the job falls in.
   */
  function BaseRatePerM2(material: EpoxyMaterial, area: real, rates: Rates): (rate: real)
    ensures material.Known? ==> rate == MaterialRate(rates, material.id)
    ensures material.Other? && area >= 500.0 ==> rate == rates.areaOver500
    ensures material.Other? && 300.0 <= area < 500.0 ==> rate == rates.area300To499
    ensures material.Other? && 101.0 <= area < 300.0 ==> rate == rates.area101To299
    ensures material.Other? && area < 101.0 ==> rate == rates.areaUnder100
  {
    match material
    case Known(id) => MaterialRate(rates, id)
    case Other =>
      if area >= 500.0 then rates.areaOver500
      else if area >= 300.0 then rates.area300To499
      else if area >= 101.0 then rates.area101To299
      else rates.areaUnder100
  }

  /** A per-area surcharge: `rate` for every square metre when triggered, nothing otherwise. */
  function Surcharge(triggered: bool, rate: real, area: real): real
  {
    if triggered then rate * area else 0.0
  }

  /**
   * The surcharge switches of a request as the calculator reads them: only
   * "poor" quality and "severe" cracks are charged, and the legacy floor
   * condition is not among them.
   */
  datatype Options = Options(
    poorFloor: bool,
    severeCracks: bool,
    antiSlip: bool,
    surfaceProtection: bool,
    selfLeveling: bool,
    colorMixing: bool
  )

  function OptionsOf(input: EpoxyQuoteInput): Options {
    Options(input.floorQuality == Some(Poor), input.crackCondition == Some(Severe),
            input.includeAntiSlip, input.includeSurfaceProtection,
            input.includeSelfLeveling, input.needsColorMixingFee)
  }

  /**
   * The body of `calculateEpoxyPrice` once the unit prices are resolved:
   * each component is charged only when its condition or option is chosen.
   */
  function QuoteWithRates(material: EpoxyMaterial, area: real, opts: Options, rates: Rates): (r: PriceBreakdown)
    ensures r.basePricePerM2 == BaseRatePerM2(material, area, rates)
    ensures r.basePrice == r.basePricePerM2 * area
    ensures r.floorQualityPrice == (if opts.poorFloor then rates.qualityPoor * area else 0.0)
    ensures r.crackRepairPrice == (if opts.severeCracks then rates.crackSevere * area else 0.0)
    ensures r.antiSlipPrice == (if opts.antiSlip then rates.antiSlip * area else 0.0)
    ensures r.surfaceProtectionPrice == (if opts.surfaceProtection then rates.surfaceProtection * area else 0.0)
    ensures r.selfLevelingPricePerM2 == (if opts.selfLeveling then rates.selfLeveling else 0.0)
    ensures r.selfLevelingPrice == r.selfLevelingPricePerM2 * area
    ensures r.colorMixingFee == (if opts.colorMixing then rates.colorMixing else 0.0)
    // the subtotal is the sum of the seven components
    ensures r.subtotal == r.basePrice + r.floorQualityPrice + r.crackRepairPrice + r.antiSlipPrice
                          + r.surfaceProtectionPrice + r.selfLevelingPrice + r.colorMixingFee
    // a positive subtotal is raised to the minimum fee; nothing is charged otherwise
    ensures r.subtotal <= 0.0 ==> r.total == 0.0 && !r.isMinFeeApplied
    ensures r.subtotal > 0.0 ==> r.total >= r.subtotal && r.total >= rates.minFee
    ensures r.total == (if r.subtotal > 0.0 then Fees.Max(r.subtotal, rates.minFee) else 0.0)
    ensures r.isMinFeeApplied <==> 0.0 < r.subtotal < rates.minFee
    ensures r.isMinFeeApplied ==> r.total == rates.minFee
    ensures r.subtotal > 0.0 && r.subtotal >= rates.minFee ==> r.total == r.subtotal
  {
    var basePricePerM2 := BaseRatePerM2(material, area, rates);
    var basePrice := basePricePerM2 * area;
    var floorQualityPrice := Surcharge(opts.poorFloor, rates.qualityPoor, area);
    var crackRepairPrice := Surcharge(opts.severeCracks, rates.crackSevere, area);
    var antiSlipPrice := Surcharge(opts.antiSlip, rates.antiSlip, area);
    var surfaceProtectionPrice := Surcharge(opts.surfaceProtection, rates.surfaceProtection, area);
    var selfLevelingPricePerM2 := if opts.selfLeveling then rates.selfLeveling else 0.0;
    var selfLevelingPrice := selfLevelingPricePerM2 * area;
    var colorMixingFee := if opts.colorMixing then rates.colorMixing else 0.0;
    var subtotal := basePrice + floorQualityPrice + crackRepairPrice + antiSlipPrice
                    + surfaceProtectionPrice + selfLevelingPrice + colorMixingFee;
    var f := Fees.ApplyMinimum(subtotal, rates.minFee);
    PriceBreakdown(basePricePerM2, basePrice, floorQualityPrice, crackRepairPrice, antiSlipPrice,
                   surfaceProtectionPrice, selfLevelingPricePerM2, selfLevelingPrice, colorMixingFee,
                   subtotal, f.minimumApplied, f.total)
  }

  /**
   * `r` is the quote of `input` at the unit prices `rates`, each line read
   * off the request itself: the base rate of its material (or area band);
   * the quality surcharge only for "poor" quality, the crack surcharge only
   * for "severe" cracks, the other per-area options only when their box is
   * ticked; the flat colour-mixing fee only when requested; and the minimum
   * fee raising a positive subtotal.
   */
  predicate PricedAt(r: PriceBreakdown, input: EpoxyQuoteInput, rates: Rates) {
    && r.basePricePerM2 == BaseRatePerM2(input.materialId, input.area, rates)
    && r.basePrice == r.basePricePerM2 * input.area
    && r.floorQualityPrice == (if input.floorQuality == Some(Poor) then rates.qualityPoor * input.area else 0.0)
    && r.crackRepairPrice == (if input.crackCondition == Some(Severe) then rates.crackSevere * input.area else 0.0)
    && r.antiSlipPrice == (if input.includeAntiSlip then rates.antiSlip * input.area else 0.0)
    && r.surfaceProtectionPrice
       == (if input.includeSurfaceProtection then rates.surfaceProtection * input.area else 0.0)
    && r.selfLevelingPricePerM2 == (if input.includeSelfLeveling then rates.selfLeveling else 0.0)
    && r.selfLevelingPrice == r.selfLevelingPricePerM2 * input.area
    && r.colorMixingFee == (if input.needsColorMixingFee then rates.colorMixing else 0.0)
    && r.subtotal == r.basePrice + r.floorQualityPrice + r.crackRepairPrice + r.antiSlipPrice
                     + r.surfaceProtectionPrice + r.selfLevelingPrice + r.colorMixingFee
    && (r.isMinFeeApplied <==> 0.0 < r.subtotal < rates.minFee)
    && r.total == (if r.subtotal > 0.0 then Fees.Max(r.subtotal, rates.minFee) else 0.0)
  }

  /** Reading the switches with `OptionsOf` and quoting prices the request as `PricedAt` says. */
  lemma QuoteWithRatesPricedAt(input: EpoxyQuoteInput, rates: Rates)
    ensures PricedAt(QuoteWithRates(input.materialId, input.area, OptionsOf(input), rates), input, rates)
  {
  }

  /**
   * `calculateEpoxyPrice`: resolve the unit prices from the rules, then quote.
   * Without a rule table, a catalog material is priced at its default rate,
   * an unlisted one at the default rate of its area band, and the minimum is
   * the default service fee.
   */
  function CalculateEpoxyPrice(input: EpoxyQuoteInput, d: Defaults): (r: PriceBreakdown)
    ensures PricedAt(r, input, ResolveRates(input.pricingRules, d))
    ensures input.pricingRules.None? && input.materialId.Known? ==>
              r.basePricePerM2 == MaterialDefault(d, input.materialId.id)
    ensures input.pricingRules.None? && input.materialId.Other? ==>
              r.basePricePerM2 == (if input.area >= 500.0 then AreaOver500Default
                                   else if input.area >= 300.0 then Area300To499Default
                                   else if input.area >= 101.0 then Area101To299Default
                                   else AreaUnder100Default)
    ensures input.pricingRules.None? ==> (r.isMinFeeApplied <==> 0.0 < r.subtotal < d.minServiceFee)
    ensures input.pricingRules.None? && r.isMinFeeApplied ==> r.total == d.minServiceFee
  {
    QuoteWithRatesPricedAt(input, ResolveRates(input.pricingRules, d));
    QuoteWithRates(input.materialId, input.area, OptionsOf(input), ResolveRates(input.pricingRules, d))
  }

  /** The legacy floor-condition input has no effect on any part of the quote. */
  lemma FloorConditionIgnored(input: EpoxyQuoteInput, d: Defaults, fc: Option<string>)
    ensures CalculateEpoxyPrice(input.(floorCondition := fc), d) == CalculateEpoxyPrice(input, d)
  {
    assert OptionsOf(input.(floorCondition := fc)) == OptionsOf(input);
  }

  /** Only "poor" quality and "severe" cracks are charged; the other grades cost the same as none. */
  lemma OtherGradesAddNothing(input: EpoxyQuoteInput, d: Defaults, q: FloorQuality, c: CrackCondition)
    requires q != Poor && c != Severe
    ensures CalculateEpoxyPrice(input.(floorQuality := Some(q), crackCondition := Some(c)), d)
            == CalculateEpoxyPrice(input.(floorQuality := None, crackCondition := None), d)
  {
    assert OptionsOf(input.(floorQuality := Some(q), crackCondition := Some(c)))
           == OptionsOf(input.(floorQuality := None, crackCondition := None));
  }

  /** The colour-mixing fee is flat: it does not depend on the area. */
  lemma ColorMixingFeeIsFlat(material: EpoxyMaterial, area1: real, area2: real, opts: Options, rates: Rates)
    ensures QuoteWithRates(material, area1, opts, rates).colorMixingFee
            == QuoteWithRates(material, area2, opts, rates).colorMixingFee
  {
  }

  /** Every charge of a quote except anti-slip treatment, which it does not read. */
  function OtherCharges(material: EpoxyMaterial, area: real, poorFloor: bool, severeCracks: bool,
                        surfaceProtection: bool, selfLeveling: bool, colorMixing: bool, rates: Rates): real
  {
    BaseRatePerM2(material, area, rates) * area
    + Surcharge(poorFloor, rates.qualityPoor, area) + Surcharge(severeCracks, rates.crackSevere, area)
    + Surcharge(surfaceProtection, rates.surfaceProtection, area)
    + (if selfLeveling then rates.selfLeveling else 0.0) * area
    + (if colorMixing then rates.colorMixing else 0.0)
  }

  /** The subtotal is the anti-slip price on top of charges that do not depend on it. */
  lemma SubtotalSplitsOffAntiSlip(material: EpoxyMaterial, area: real, poorFloor: bool, severeCracks: bool,
                                  antiSlip: bool, surfaceProtection: bool, selfLeveling: bool, colorMixing: bool,
                                  rates: Rates)
    ensures QuoteWithRates(material, area,
                           Options(poorFloor, severeCracks, antiSlip, surfaceProtection, selfLeveling, colorMixing),
                           rates).subtotal
            == OtherCharges(material, area, poorFloor, severeCracks, surfaceProtection, selfLeveling, colorMixing, rates)
               + Surcharge(antiSlip, rates.antiSlip, area)
  {
  }

  /** With a non-negative rate and area, anti-slip treatment never lowers the subtotal. */
  lemma AntiSlipNeverLowersSubtotal(material: EpoxyMaterial, area: real, opts: Options, rates: Rates)
    requires area >= 0.0 && rates.antiSlip >= 0.0
    ensures QuoteWithRates(material, area, opts.(antiSlip := false), rates).subtotal
            <= QuoteWithRates(material, area, opts.(antiSlip := true), rates).subtotal
  {
    SubtotalSplitsOffAntiSlip(material, area, opts.poorFloor, opts.severeCracks, false, opts.surfaceProtection,
                              opts.selfLeveling, opts.colorMixing, rates);
    SubtotalSplitsOffAntiSlip(material, area, opts.poorFloor, opts.severeCracks, true, opts.surfaceProtection,
                              opts.selfLeveling, opts.colorMixing, rates);
    assert rates.antiSlip * area >= 0.0;
  }

  /**
   * With a non-negative rate, area and minimum fee, switching on anti-slip
   * treatment never lowers the quoted total.
   */
  lemma AntiSlipNeverLowersTotal(material: EpoxyMaterial, area: real, opts: Options, rates: Rates)
    requires area >= 0.0 && rates.antiSlip >= 0.0 && rates.minFee >= 0.0
    ensures QuoteWithRates(material, area, opts.(antiSlip := false), rates).total
            <= QuoteWithRates(material, area, opts.(antiSlip := true), rates).total
  {
    AntiSlipNeverLowersSubtotal(material, area, opts, rates);
    Fees.ApplyMinimumMonotone(QuoteWithRates(material, area, opts.(antiSlip := false), rates).subtotal,
                              QuoteWithRates(material, area, opts.(antiSlip := true), rates).subtotal, rates.minFee);
  }

  /** An "epoxy / option / anti_slip" rule replaces the default anti-slip rate. */
  lemma AntiSlipRuleOverrides(d: Defaults, rule: PricingRule)
    requires rule.serviceType == "epoxy" && rule.category == "option" && rule.key == "anti_slip"
    ensures ResolveRates(Some([rule]), d).antiSlip == rule.value
    ensures ResolveRates(None, d).antiSlip == d.antiSlip
  {
    assert IsFirstMatch([rule], Exact("epoxy", "option", "anti_slip"), 0);
  }

  /** A quote with nothing to charge for costs nothing: the minimum fee is not applied. */
  lemma EmptyJobCostsNothing(input: EpoxyQuoteInput, d: Defaults)
    requires input.area == 0.0 && !input.needsColorMixingFee
    ensures CalculateEpoxyPrice(input, d).total == 0.0
    ensures !CalculateEpoxyPrice(input, d).isMinFeeApplied
  {
  }

  /** 100 m2 of solid epoxy at the 45000 default rate, no options: 4,500,000, above the minimum. */
  lemma SolidEpoxyExample(d: Defaults)
    requires d.solidEpoxy == 45000.0 && d.minServiceFee == 300000.0
    ensures var r := CalculateEpoxyPrice(
              EpoxyQuoteInput(Known(SolidEpoxy), 100.0, None, None, None, false, false, false, false, None), d);
            r.basePricePerM2 == 45000.0 && r.basePrice == 4500000.0 && r.total == 4500000.0 && !r.isMinFeeApplied
  {
  }

  /** 2 m2 of an unlisted material uses the under-100 band (130,000) and is raised to the minimum. */
  lemma SmallUnknownJobExample(d: Defaults)
    requires d.minServiceFee == 300000.0
    ensures var r := CalculateEpoxyPrice(
              EpoxyQuoteInput(Other, 2.0, None, None, None, false, false, false, false, None), d);
            r.basePricePerM2 == AreaUnder100Default && r.subtotal == 130000.0
            && r.total == 300000.0 && r.isMinFeeApplied
  {
  }
}
