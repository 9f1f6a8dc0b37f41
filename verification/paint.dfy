/**
 * Interior and exterior painting quotes: a base rate chosen by paint type
 * and three independent per-area add-ons, summed with no minimum fee.
 */
module Paint {
  import opened Wrappers
  import opened PricingRules

  datatype PaintType = Interior | Exterior

  datatype PaintQuoteInput = PaintQuoteInput(
    paintType: PaintType,
    area: real,
    isWaterproof: bool,
    isFireproof: bool,
    isPutty: bool,
    pricingRules: Option<seq<PricingRule>>
  )

  datatype PaintPriceBreakdown = PaintPriceBreakdown(
    basePricePerM2: real,
    basePrice: real,
    waterproofPrice: real,
    fireproofPrice: real,
    puttyPrice: real,
    total: real
  )

  /** Default unit prices per square metre. */
  const InteriorDefault: real := 25000.0
  const ExteriorDefault: real := 35000.0
  const WaterproofDefault: real := 10000.0
  const FireproofDefault: real := 15000.0
  const PuttyDefault: real := 5000.0

  /** The categories a paint lookup accepts; the key alone tells the prices apart. */
  const PaintCategories: seq<string> := ["area_base", "option"]

  /**
   * The inner `getPrice` of `calculatePaintPrice`: the value of the first
   * "paint" rule in category "area_base" or "option" with this key, or
   * `fallback`.
   */
  function PaintPrice(rules: Option<seq<PricingRule>>, key: string, fallback: real): (p: real)
    ensures rules.None? ==> p == fallback
    ensures rules.Some? && NoMatch(rules.value, AnyCategory("paint", PaintCategories, key)) ==> p == fallback
    ensures forall i :: rules.Some? && IsFirstMatch(rules.value, AnyCategory("paint", PaintCategories, key), i)
              ==> p == rules.value[i].value && rules.value[i].serviceType == "paint"
                  && (rules.value[i].category == "area_base" || rules.value[i].category == "option")
                  && rules.value[i].key == key
  {
    Lookup(rules, AnyCategory("paint", PaintCategories, key), fallback)
  }

  /** A rule of another service or of another category, inserted anywhere in the table, is never consulted. */
  lemma PaintPriceIgnoresForeignRules(front: seq<PricingRule>, other: PricingRule, back: seq<PricingRule>,
                                      key: string, fallback: real)
    requires other.serviceType != "paint" || (other.category != "area_base" && other.category != "option")
    ensures PaintPrice(Some(front + [other] + back), key, fallback) == PaintPrice(Some(front + back), key, fallback)
  {
    LookupIgnoresOtherRows(front, other, back, AnyCategory("paint", PaintCategories, key), fallback);
  }

  /** The category does not tell base rates from add-ons: an "option" rule keyed "interior" sets the interior rate. */
  lemma OptionRuleCanSetBaseRate(rule: PricingRule)
    requires rule.serviceType == "paint" && rule.category == "option" && rule.key == "interior"
    ensures PaintPrice(Some([rule]), "interior", InteriorDefault) == rule.value
  {
    assert IsFirstMatch([rule], AnyCategory("paint", PaintCategories, "interior"), 0);
  }

  /** The unit prices of one quote, after rule overrides. */
  datatype PaintRates = PaintRates(interior: real, exterior: real, waterproof: real, fireproof: real, putty: real)

  function ResolvePaintRates(rules: Option<seq<PricingRule>>): (rates: PaintRates)
    ensures rules.None? ==> rates == PaintRates(InteriorDefault, ExteriorDefault, WaterproofDefault, FireproofDefault, PuttyDefault)
  {
    PaintRates(
      PaintPrice(rules, "interior", InteriorDefault),
      PaintPrice(rules, "exterior", ExteriorDefault),
      PaintPrice(rules, "waterproof", WaterproofDefault),
      PaintPrice(rules, "fireproof", FireproofDefault),
      PaintPrice(rules, "putty", PuttyDefault)
    )
  }

  /** The three independent add-ons. */
  datatype AddOn = Waterproof | Fireproof | Putty

  datatype AddOns = AddOns(waterproof: bool, fireproof: bool, putty: bool) {
    function Has(a: AddOn): bool {
      match a
      case Waterproof => waterproof
      case Fireproof => fireproof
      case Putty => putty
    }

    /** The same choice with add-on `a` switched to `on`. */
    function With(a: AddOn, on: bool): (r: AddOns)
      ensures r.Has(a) == on
      ensures forall b :: b != a ==> r.Has(b) == Has(b)
    {
      match a
      case Waterproof => this.(waterproof := on)
      case Fireproof => this.(fireproof := on)
      case Putty => this.(putty := on)
    }
  }

  function UnitOf(rates: PaintRates, a: AddOn): real {
    match a
    case Waterproof => rates.waterproof
    case Fireproof => rates.fireproof
    case Putty => rates.putty
  }

  /** The five unit prices a rule table can set. */
  datatype PaintRateKey = BaseRate(t: PaintType) | AddOnRate(a: AddOn)

  function KeyOf(k: PaintRateKey): string {
    match k
    case BaseRate(Interior) => "interior"
    case BaseRate(Exterior) => "exterior"
    case AddOnRate(Waterproof) => "waterproof"
    case AddOnRate(Fireproof) => "fireproof"
    case AddOnRate(Putty) => "putty"
  }

  function DefaultOf(k: PaintRateKey): real {
    match k
    case BaseRate(Interior) => InteriorDefault
    case BaseRate(Exterior) => ExteriorDefault
    case AddOnRate(Waterproof) => WaterproofDefault
    case AddOnRate(Fireproof) => FireproofDefault
    case AddOnRate(Putty) => PuttyDefault
  }

  function RateOf(rates: PaintRates, k: PaintRateKey): real {
    match k
    case BaseRate(Interior) => rates.interior
    case BaseRate(Exterior) => rates.exterior
    case AddOnRate(a) => UnitOf(rates, a)
  }

  /**
   * For any rule table, each resolved price is the value of the first "paint"
   * rule in "area_base" or "option" with its key, and its default when there
   * is no table or no such rule.
   */
  lemma ResolvePaintRatesByKey(rules: Option<seq<PricingRule>>, k: PaintRateKey)
    ensures rules.None? ==> RateOf(ResolvePaintRates(rules), k) == DefaultOf(k)
    ensures rules.Some? && NoMatch(rules.value, AnyCategory("paint", PaintCategories, KeyOf(k))) ==>
              RateOf(ResolvePaintRates(rules), k) == DefaultOf(k)
    ensures forall i :: rules.Some? && IsFirstMatch(rules.value, AnyCategory("paint", PaintCategories, KeyOf(k)), i) ==>
              RateOf(ResolvePaintRates(rules), k) == rules.value[i].value
  {
    RateIsPaintPrice(rules, k);
  }

  /** Each resolved price is the lookup of its own key with its own default. */
  lemma RateIsPaintPrice(rules: Option<seq<PricingRule>>, k: PaintRateKey)
    ensures RateOf(ResolvePaintRates(rules), k) == PaintPrice(rules, KeyOf(k), DefaultOf(k))
  {
    match k
    case BaseRate(Interior) =>
    case BaseRate(Exterior) =>
    case AddOnRate(Waterproof) =>
    case AddOnRate(Fireproof) =>
    case AddOnRate(Putty) =>
  }

  /** No two prices share a key: a rule sets at most one of them. */
  lemma PaintRateKeysDistinct(k1: PaintRateKey, k2: PaintRateKey)
    requires k1 != k2
    ensures KeyOf(k1) != KeyOf(k2)
  {
  }

  function PriceOf(r: PaintPriceBreakdown, a: AddOn): real {
    match a
    case Waterproof => r.waterproofPrice
    case Fireproof => r.fireproofPrice
    case Putty => r.puttyPrice
  }

  /** The body of `calculatePaintPrice` once the unit prices are resolved. */
  function QuotePaint(paintType: PaintType, area: real, addOns: AddOns, rates: PaintRates): (r: PaintPriceBreakdown)
    // the base rate depends on the paint type alone
    ensures r.basePricePerM2 == (match paintType case Interior => rates.interior case Exterior => rates.exterior)
    ensures r.basePrice == r.basePricePerM2 * area
    // each add-on costs its unit rate per square metre when chosen, and nothing otherwise
    ensures forall a :: PriceOf(r, a) == (if addOns.Has(a) then UnitOf(rates, a) * area else 0.0)
    // the total is the plain sum: no minimum fee
    ensures r.total == r.basePrice + r.waterproofPrice + r.fireproofPrice + r.puttyPrice
  {
    var basePricePerM2 := match paintType case Interior => rates.interior case Exterior => rates.exterior;
    var basePrice := basePricePerM2 * area;
    var waterproofPrice := if addOns.waterproof then rates.waterproof * area else 0.0;
    var fireproofPrice := if addOns.fireproof then rates.fireproof * area else 0.0;
    var puttyPrice := if addOns.putty then rates.putty * area else 0.0;
    PaintPriceBreakdown(basePricePerM2, basePrice, waterproofPrice, fireproofPrice, puttyPrice,
                        basePrice + waterproofPrice + fireproofPrice + puttyPrice)
  }

  /**
   * `r` prices `area` square metres of `paintType` with `addOns` at `rates`:
   * the type's own rate per square metre, each chosen add-on at its own rate
   * per square metre, nothing for the others, and the plain sum as total.
   */
  predicate PricedAt(r: PaintPriceBreakdown, paintType: PaintType, area: real, addOns: AddOns, rates: PaintRates) {
    && r.basePricePerM2 == RateOf(rates, BaseRate(paintType))
    && r.basePrice == r.basePricePerM2 * area
    && (forall a :: PriceOf(r, a) == (if addOns.Has(a) then RateOf(rates, AddOnRate(a)) * area else 0.0))
    && r.total == r.basePrice + r.waterproofPrice + r.fireproofPrice + r.puttyPrice
  }

  /** `QuotePaint` prices a job at the rates it is given, whatever they are. */
  lemma QuotePaintPricedAt(paintType: PaintType, area: real, addOns: AddOns, rates: PaintRates)
    ensures PricedAt(QuotePaint(paintType, area, addOns, rates), paintType, area, addOns, rates)
  {
    match paintType
    case Interior => {}
    case Exterior => {}
  }

  function AddOnsOf(input: PaintQuoteInput): AddOns {
    AddOns(input.isWaterproof, input.isFireproof, input.isPutty)
  }

  /**
   * `calculatePaintPrice`. Without a rule table the interior rate is 25000,
   * the exterior 35000, and the add-ons 10000, 15000 and 5000 per square metre.
   */
  function CalculatePaintPrice(input: PaintQuoteInput): (r: PaintPriceBreakdown)
    ensures PricedAt(r, input.paintType, input.area, AddOnsOf(input), ResolvePaintRates(input.pricingRules))
  {
    QuotePaintPricedAt(input.paintType, input.area, AddOnsOf(input), ResolvePaintRates(input.pricingRules));
    QuotePaint(input.paintType, input.area, AddOnsOf(input), ResolvePaintRates(input.pricingRules))
  }

  /**
   * Without a rule table the interior rate is 25000, the exterior 35000, and
   * the add-ons 10000, 15000 and 5000 per square metre.
   */
  lemma DefaultPaintQuote(input: PaintQuoteInput)
    requires input.pricingRules.None?
    ensures var r := CalculatePaintPrice(input);
            && r.basePricePerM2 == (if input.paintType == Interior then InteriorDefault else ExteriorDefault)
            && r.waterproofPrice == (if input.isWaterproof then WaterproofDefault * input.area else 0.0)
            && r.fireproofPrice == (if input.isFireproof then FireproofDefault * input.area else 0.0)
            && r.puttyPrice == (if input.isPutty then PuttyDefault * input.area else 0.0)
  {
    var r := CalculatePaintPrice(input);
    assert PriceOf(r, Waterproof) == r.waterproofPrice;
    assert PriceOf(r, Fireproof) == r.fireproofPrice;
    assert PriceOf(r, Putty) == r.puttyPrice;
  }

  /**
   * Switching one add-on on adds exactly its own price to its own component
   * and to the total; the base and the other add-ons do not move.
   */
  lemma ToggleOnlyMovesItsOwnPrice(paintType: PaintType, area: real, addOns: AddOns, rates: PaintRates, a: AddOn)
    ensures var off := QuotePaint(paintType, area, addOns.With(a, false), rates);
            var on := QuotePaint(paintType, area, addOns.With(a, true), rates);
            && on.basePricePerM2 == off.basePricePerM2 && on.basePrice == off.basePrice
            && (forall b :: b != a ==> PriceOf(on, b) == PriceOf(off, b))
            && PriceOf(off, a) == 0.0 && PriceOf(on, a) == UnitOf(rates, a) * area
            && on.total == off.total + UnitOf(rates, a) * area
  {
    var off := QuotePaint(paintType, area, addOns.With(a, false), rates);
    var on := QuotePaint(paintType, area, addOns.With(a, true), rates);
    forall b | b != a ensures PriceOf(on, b) == PriceOf(off, b) {
      assert addOns.With(a, true).Has(b) == addOns.With(a, false).Has(b);
    }
    match a {
      case Waterproof =>
        assert on.fireproofPrice == off.fireproofPrice && on.puttyPrice == off.puttyPrice by {
          assert PriceOf(on, Fireproof) == PriceOf(off, Fireproof);
          assert PriceOf(on, Putty) == PriceOf(off, Putty);
        }
      case Fireproof =>
        assert on.waterproofPrice == off.waterproofPrice && on.puttyPrice == off.puttyPrice by {
          assert PriceOf(on, Waterproof) == PriceOf(off, Waterproof);
          assert PriceOf(on, Putty) == PriceOf(off, Putty);
        }
      case Putty =>
        assert on.waterproofPrice == off.waterproofPrice && on.fireproofPrice == off.fireproofPrice by {
          assert PriceOf(on, Waterproof) == PriceOf(off, Waterproof);
          assert PriceOf(on, Fireproof) == PriceOf(off, Fireproof);
        }
    }
  }

  /** A zero area costs nothing, whatever is chosen: there is no floor. */
  lemma NoMinimumFee(paintType: PaintType, addOns: AddOns, rates: PaintRates)
    ensures QuotePaint(paintType, 0.0, addOns, rates).total == 0.0
  {
    var r := QuotePaint(paintType, 0.0, addOns, rates);
    assert PriceOf(r, Waterproof) == 0.0 && PriceOf(r, Fireproof) == 0.0 && PriceOf(r, Putty) == 0.0;
  }
}
