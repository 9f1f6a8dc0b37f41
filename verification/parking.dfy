/**
 * Parking-lot line painting: estimating spot counts from a measured area and
 * pricing those counts per spot with a minimum call-out fee.
 */
module Parking {
  import opened Text
  import Fees

  /** Area a single spot consumes, bay plus aisle, in square metres. */
  const AreaPerSpot: real := 30.0
  /** Share of spots reserved for disabled parking once there are at least `DisabledThreshold`. */
  const DisabledRatio: real := 0.03
  const DisabledThreshold: int := 10
  /** Share of spots with EV chargers once there are at least `EvThreshold`. */
  const EvRatio: real := 0.05
  const EvThreshold: int := 20

  /** Unit prices per spot, and the minimum mobilisation fee. */
  const RegularPrice: real := 30000.0
  const DisabledPrice: real := 50000.0
  const EvPrice: real := 50000.0
  const MinMobilization: real := 300000.0

  datatype SpotEstimate = SpotEstimate(
    totalSpots: int,
    regularSpots: int,
    disabledSpots: int,
    evSpots: int
  )

  datatype PriceEstimate = PriceEstimate(subtotal: real, total: real, isMinimumApplied: bool)

  /** `Math.ceil`: the least integer not below `x`. */
  function Ceil(x: real): (c: int)
    ensures (c as real) - 1.0 < x <= c as real
  {
    -((-x).Floor)
  }

  function MaxInt(a: int, b: int): int {
    if a >= b then a else b
  }

  /**
   * Spots reserved at `ratio` of `total`, rounded up and at least one, but
   * only once `total` reaches `threshold`.
   */
  function Reserved(total: int, threshold: int, ratio: real): (n: int)
    requires threshold >= 1
    ensures total < threshold ==> n == 0
    ensures total >= threshold ==> n >= 1 && n as real >= ratio * total as real
    ensures total >= threshold ==> n == 1 || (n - 1) as real < ratio * total as real
  {
    if total >= threshold then MaxInt(1, Ceil(total as real * ratio)) else 0
  }

  /** `calculateParkingSpots`: how many spots of each kind fit in `areaSqm`. */
  function CalculateParkingSpots(areaSqm: real): (r: SpotEstimate)
    // every count is non-negative and the three kinds add up to the total
    ensures r.totalSpots >= 0 && r.regularSpots >= 0 && r.disabledSpots >= 0 && r.evSpots >= 0
    ensures r.regularSpots + r.disabledSpots + r.evSpots == r.totalSpots
    // the total is the number of whole 30 m2 bays in the area
    ensures areaSqm < AreaPerSpot ==> r == SpotEstimate(0, 0, 0, 0)
    ensures areaSqm >= 0.0 ==> AreaPerSpot * r.totalSpots as real <= areaSqm < AreaPerSpot * (r.totalSpots + 1) as real
    // disabled spots: none below ten, otherwise the least count covering 3%, and at least one
    ensures r.totalSpots < DisabledThreshold ==> r.disabledSpots == 0
    ensures r.totalSpots >= DisabledThreshold ==>
              r.disabledSpots >= 1 && 100 * r.disabledSpots >= 3 * r.totalSpots
              && (r.disabledSpots == 1 || 100 * (r.disabledSpots - 1) < 3 * r.totalSpots)
    // EV spots: none below twenty, otherwise the least count covering 5%, and at least one
    ensures r.totalSpots < EvThreshold ==> r.evSpots == 0
    ensures r.totalSpots >= EvThreshold ==>
              r.evSpots >= 1 && 100 * r.evSpots >= 5 * r.totalSpots
              && (r.evSpots == 1 || 100 * (r.evSpots - 1) < 5 * r.totalSpots)
  {
    var totalSpots := (areaSqm / AreaPerSpot).Floor;
    if totalSpots <= 0 then
      SpotEstimate(0, 0, 0, 0)
    else
      var disabledSpots := Reserved(totalSpots, DisabledThreshold, DisabledRatio);
      var evSpots := Reserved(totalSpots, EvThreshold, EvRatio);
      var regularSpots := MaxInt(0, totalSpots - disabledSpots - evSpots);
      SpotEstimate(totalSpots, regularSpots, disabledSpots, evSpots)
  }

  /** `calculateEstimatedPrice`: per-spot prices summed, then the minimum mobilisation fee. */
  function CalculateEstimatedPrice(regularSpots: int, disabledSpots: int, evChargingSpots: int): (p: PriceEstimate)
    ensures p.subtotal == RegularPrice * regularSpots as real
                          + DisabledPrice * disabledSpots as real + EvPrice * evChargingSpots as real
    ensures p.subtotal <= 0.0 ==> p.total == 0.0
    ensures p.subtotal > 0.0 ==> p.total >= MinMobilization && p.total >= p.subtotal
    ensures p.subtotal > 0.0 ==> p.total == Fees.Max(p.subtotal, MinMobilization)
    ensures p.subtotal >= MinMobilization ==> p.total == p.subtotal
    ensures p.isMinimumApplied <==> 0.0 < p.subtotal < MinMobilization
    ensures p.isMinimumApplied ==> p.total == MinMobilization
    ensures p.isMinimumApplied <==> p.subtotal > 0.0 && p.total != p.subtotal
  {
    var subtotal := regularSpots as real * RegularPrice
                    + disabledSpots as real * DisabledPrice
                    + evChargingSpots as real * EvPrice;
    var f := Fees.ApplyMinimum(subtotal, MinMobilization);
    PriceEstimate(subtotal, f.total, f.minimumApplied)
  }

  /** Quoting an area-derived estimate: nothing for under one bay, and the minimum applies exactly for one to nine bays. */
  lemma QuoteForArea(areaSqm: real)
    ensures var e := CalculateParkingSpots(areaSqm);
            var p := CalculateEstimatedPrice(e.regularSpots, e.disabledSpots, e.evSpots);
            && (e.totalSpots == 0 <==> p.total == 0.0)
            && (p.isMinimumApplied <==> 1 <= e.totalSpots < DisabledThreshold)
            && p.subtotal == RegularPrice * e.totalSpots as real
                             + (DisabledPrice - RegularPrice) * (e.disabledSpots + e.evSpots) as real
  {
    var e := CalculateParkingSpots(areaSqm);
    assert e.totalSpots as real == (e.regularSpots + e.disabledSpots + e.evSpots) as real;
  }

  /** Boundary values: nine bays reserve nothing, ten reserve one disabled spot, twenty one EV spot. */
  lemma ThresholdBoundaries()
    ensures CalculateParkingSpots(270.0) == SpotEstimate(9, 9, 0, 0)
    ensures CalculateParkingSpots(300.0) == SpotEstimate(10, 9, 1, 0)
    ensures CalculateParkingSpots(599.0).evSpots == 0
    ensures CalculateParkingSpots(600.0) == SpotEstimate(20, 18, 1, 1)
  {
  }

  /** One line of the summary: a kind of spot and its (positive) count. */
  datatype SummaryItem = TotalItem(n: nat) | DisabledItem(n: nat) | EvItem(n: nat) {
    /** Position of the kind in the summary. */
    function Rank(): int {
      match this
      case TotalItem(_) => 0
      case DisabledItem(_) => 1
      case EvItem(_) => 2
    }

    /** The label in front of the count. */
    function Label(): string {
      match this
      case TotalItem(_) => "총 "
      case DisabledItem(_) => "장애인 "
      case EvItem(_) => "전기차 "
    }

    /** The segment: its label, the count as a decimal numeral, then "대". */
    function Render(): string {
      Label() + NatToString(n) + "대"
    }
  }

  /**
   * A rendered segment reads back: it starts with its label, ends with "대",
   * and what lies between is the decimal numeral of the count.
   */
  lemma RenderReadsBack(item: SummaryItem)
    ensures var r := item.Render();
            && |r| > |item.Label()| && r[..|item.Label()|] == item.Label() && r[|r| - 1] == '대'
            && IsDigits(r[|item.Label()|..|r| - 1]) && ParseDigits(r[|item.Label()|..|r| - 1]) == item.n
  {
    var r := item.Render();
    ParseNatToString(item.n);
    assert r[|item.Label()|..|r| - 1] == NatToString(item.n);
  }

  /** The count of `e` that a line of `item`'s kind reports. */
  function CountOf(e: SpotEstimate, item: SummaryItem): int {
    match item
    case TotalItem(_) => e.totalSpots
    case DisabledItem(_) => e.disabledSpots
    case EvItem(_) => e.evSpots
  }

  /** The summary lines, one for each count that is positive, in the order total, disabled, EV. */
  function SummaryItems(e: SpotEstimate): (items: seq<SummaryItem>)
    ensures e.totalSpots > 0 <==> exists i :: 0 <= i < |items| && items[i].TotalItem?
    ensures e.disabledSpots > 0 <==> exists i :: 0 <= i < |items| && items[i].DisabledItem?
    ensures e.evSpots > 0 <==> exists i :: 0 <= i < |items| && items[i].EvItem?
    ensures forall i :: 0 <= i < |items| ==> items[i].n == CountOf(e, items[i])
    ensures forall i :: 0 <= i < |items| ==> items[i].n > 0
    ensures forall i, j :: 0 <= i < j < |items| ==> items[i].Rank() < items[j].Rank()
  {
    var t := if e.totalSpots > 0 then [TotalItem(e.totalSpots)] else [];
    var d := if e.disabledSpots > 0 then [DisabledItem(e.disabledSpots)] else [];
    var v := if e.evSpots > 0 then [EvItem(e.evSpots)] else [];
    var items := t + d + v;
    assert e.totalSpots > 0 ==> items[0].TotalItem?;
    assert e.disabledSpots > 0 ==> items[|t|].DisabledItem?;
    assert e.evSpots > 0 ==> items[|t| + |d|].EvItem?;
    items
  }

  function RenderAll(items: seq<SummaryItem>): (lines: seq<string>)
    ensures |lines| == |items|
    ensures forall i :: 0 <= i < |items| ==> lines[i] == items[i].Render()
  {
    if |items| == 0 then [] else [items[0].Render()] + RenderAll(items[1..])
  }

  /** `getParkingSummary`: the rendered lines joined by " / ". */
  function GetParkingSummary(e: SpotEstimate): (s: string)
    ensures s == "" <==> e.totalSpots <= 0 && e.disabledSpots <= 0 && e.evSpots <= 0
    ensures e.totalSpots > 0 ==> TotalItem(e.totalSpots).Render() <= s
  {
    var items := SummaryItems(e);
    var s := Join(RenderAll(items), " / ");
    assert |items| > 0 ==> |items[0].Render()| > 0;
    s
  }

  /** The three segments of the twenty-bay summary. */
  lemma TwentyBayLines()
    ensures RenderAll([TotalItem(20), DisabledItem(1), EvItem(1)]) == ["총 20대", "장애인 1대", "전기차 1대"]
  {
    assert NatToString(20) == "20" by {
      assert NatToString(2) == "2" && NatToString(0) == "0";
    }
    assert NatToString(1) == "1";
    assert TotalItem(20).Render() == "총 " + "20" + "대" == "총 20대";
    assert DisabledItem(1).Render() == "장애인 " + "1" + "대" == "장애인 1대";
    assert EvItem(1).Render() == "전기차 " + "1" + "대" == "전기차 1대";
  }

  /** Twenty bays: all three kinds are reported, in order, separated by " / ". */
  lemma SummaryExample()
    ensures GetParkingSummary(SpotEstimate(20, 18, 1, 1)) == "총 20대" + " / " + "장애인 1대" + " / " + "전기차 1대"
    ensures GetParkingSummary(SpotEstimate(0, 0, 0, 0)) == ""
  {
    var e := SpotEstimate(20, 18, 1, 1);
    assert SummaryItems(e) == [TotalItem(20), DisabledItem(1), EvItem(1)];
    TwentyBayLines();
    SummaryIsJoin(e);
    JoinThree("총 20대", "장애인 1대", "전기차 1대", " / ");
  }

  /** Unfolds `GetParkingSummary` into its join; a proof step for the lemmas around it, nothing more. */
  lemma SummaryIsJoin(e: SpotEstimate)
    ensures GetParkingSummary(e) == Join(RenderAll(SummaryItems(e)), " / ")
  {
  }

  /** A positive disabled or EV count shows up in the summary as its own segment. */
  lemma ReservedSegmentsShown(e: SpotEstimate)
    ensures e.disabledSpots > 0 ==> Occurs(DisabledItem(e.disabledSpots).Render(), GetParkingSummary(e))
    ensures e.evSpots > 0 ==> Occurs(EvItem(e.evSpots).Render(), GetParkingSummary(e))
  {
    var items := SummaryItems(e);
    var s := GetParkingSummary(e);
    if e.disabledSpots > 0 {
      var i :| 0 <= i < |items| && items[i].DisabledItem?;
      SegmentOccurs(e, i);
    }
    if e.evSpots > 0 {
      var i :| 0 <= i < |items| && items[i].EvItem?;
      SegmentOccurs(e, i);
    }
  }

  /** Every summary item appears, rendered, in the summary text. */
  lemma SegmentOccurs(e: SpotEstimate, i: nat)
    requires i < |SummaryItems(e)|
    ensures Occurs(SummaryItems(e)[i].Render(), GetParkingSummary(e))
  {
    SummaryIsJoin(e);
    JoinPartOccurs(RenderAll(SummaryItems(e)), " / ", i);
  }
}
