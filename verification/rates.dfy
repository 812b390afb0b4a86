/** The pricing vocabulary shared by both revisions of the charge calculator: the
    "Quote Required" sentinel as a sum type, the weight-tier rate, dimensional weight, the
    freight clamp in both of its written orders, the fuel surcharge, and the accessorial
    charges whose code is the same in both revisions. */
module Rates {
  import opened Wrappers
  import opened Text
  import opened Tables
  import opened Shipments

  /** A dollar amount, or the "Quote Required" sentinel for a shipment that cannot be priced. */
  datatype Money = Priced(amount: real) | QuoteRequired

  /** The weight tiers of a PRICE_TABLE row. */
  datatype Tier = Tier1000 | Tier2000 | Tier5000 | Tier10000

  /** The seven accessorial charges of one shipment. */
  datatype Accessorials = Accessorials(
    debris: real, liftgate: real, inside: real, overLength: real,
    residential: real, timeSpecific: real, detention: real)

  const NoAccessorials: Accessorials := Accessorials(0.0, 0.0, 0.0, 0.0, 0.0, 0.0, 0.0)

  /** What a calculator computes for one shipment. `chargeable` is the weight the calculator
      reports under that name, `extras` the accessorial total it reports. */
  datatype Charges = Charges(
    chargeable: real,
    freight: Money,
    fuelSurcharge: Money,
    accessorials: Accessorials,
    extras: real,
    total: Money)

  /** `Math.max`. */
  function Max(a: real, b: real): real {
    if a >= b then a else b
  }

  /** `Math.min`. */
  function Min(a: real, b: real): real {
    if a <= b then a else b
  }

  /** The sum of the seven accessorial charges. */
  function Sum(a: Accessorials): real {
    a.debris + a.liftgate + a.inside + a.overLength + a.residential + a.timeSpecific + a.detention
  }

  /** `PRICE_TABLE[zone?.toUpperCase()]`: the rate row of a zone, found only when the zone
      upper-cases to one of the twelve letter keys. */
  function RatesFor(zone: string): (r: Option<ZoneRates>)
    ensures r.Some? <==> ToUpper(zone) in ValidZones
    ensures r.Some? ==> r.value == PriceTable[ToUpper(zone)]
    ensures r.Some? ==> 0.0 < r.value.min <= r.value.max
  {
    var key := ToUpper(zone);
    if key in PriceTable then
      ZoneRatesWellFormed(key);
      Some(PriceTable[key])
    else None
  }

  /** The weight tier by descending thresholds; every weight below 2000 lb, including
      below 1000 lb, takes the 1000+ tier. */
  function TierFor(weight: real): (t: Tier)
    ensures t == Tier10000 <==> 10000.0 <= weight
    ensures t == Tier5000 <==> 5000.0 <= weight < 10000.0
    ensures t == Tier2000 <==> 2000.0 <= weight < 5000.0
    ensures t == Tier1000 <==> weight < 2000.0
  {
    if weight >= 10000.0 then Tier10000
    else if weight >= 5000.0 then Tier5000
    else if weight >= 2000.0 then Tier2000
    else Tier1000
  }

  function TierRate(rates: ZoneRates, t: Tier): real {
    match t
    case Tier10000 => rates.r10000
    case Tier5000 => rates.r5000
    case Tier2000 => rates.r2000
    case Tier1000 => rates.r1000
  }

  /** Unclamped freight: the weight times the rate of its tier. */
  function LinearFreight(rates: ZoneRates, weight: real): real {
    weight * TierRate(rates, TierFor(weight))
  }

  /** The documented tier boundary: 1999.99 lb still takes the 1000+ rate, 2000 lb the 2000+ rate. */
  lemma TierBoundary()
    ensures TierFor(1999.99) == Tier1000 && TierFor(2000.0) == Tier2000
    ensures LinearFreight(PriceTable["A"], 2000.0) == 2000.0 * 0.0137
    ensures LinearFreight(PriceTable["A"], 1999.99) == 1999.99 * 0.0144
  {
  }

  /** Dimensional weight: cubic feet to cubic inches, at 115 cubic inches per pound. */
  function ChargeableWeight(volumeFt3: real): real {
    (volumeFt3 * 1728.0) / 115.0
  }

  /** `Math.max(weight, chargeableWeight)`: the weight billed is the larger of the two. */
  function ApplicableWeight(weight: real, chargeable: real): (w: real)
    ensures w >= weight && w >= chargeable
    ensures w == weight || w == chargeable
  {
    Max(weight, chargeable)
  }

  /** `Math.max(lo, Math.min(x, hi))`, the order the per-page calculator writes. */
  function ClampFloorLast(x: real, lo: real, hi: real): real {
    Max(lo, Min(x, hi))
  }

  /** `Math.min(Math.max(x, lo), hi)`, the order the consolidator's helpers write. */
  function ClampCapLast(x: real, lo: real, hi: real): real {
    Min(Max(x, lo), hi)
  }

  /** With a floor below the cap the two written clamp orders agree, keep the value within the
      bounds, leave an in-range value alone and move an out-of-range one to the nearer bound. */
  lemma ClampOrdersAgree(x: real, lo: real, hi: real)
    requires lo <= hi
    ensures ClampFloorLast(x, lo, hi) == ClampCapLast(x, lo, hi)
    ensures lo <= ClampFloorLast(x, lo, hi) <= hi
    ensures lo <= x <= hi ==> ClampFloorLast(x, lo, hi) == x
    ensures x < lo ==> ClampFloorLast(x, lo, hi) == lo
    ensures x > hi ==> ClampFloorLast(x, lo, hi) == hi
  {
  }

  /** `freight * fuelSurchargePercent`, with "Quote Required" passed through. */
  function FuelSurcharge(freight: Money, fuelSurchargePercent: real): (r: Money)
    ensures r.QuoteRequired? <==> freight.QuoteRequired?
    ensures freight.Priced? ==> r.amount == freight.amount * fuelSurchargePercent
  {
    match freight
    case Priced(f) => Priced(f * fuelSurchargePercent)
    case QuoteRequired => QuoteRequired
  }

  /** Debris removal: $3 per pallet when the BOL has a debris section or the client is
      Lakeshore. The consolidator's helper returns 0 early for a zero pallet count, which is
      the same value. */
  function DebrisCharge(palletCount: real, hasDebrisSection: bool, isLakeshore: bool): (r: real)
    ensures hasDebrisSection || isLakeshore ==> r == 3.0 * palletCount
    ensures !hasDebrisSection && !isLakeshore ==> r == 0.0
  {
    if palletCount == 0.0 then 0.0
    else if hasDebrisSection || isLakeshore then palletCount * 3.0
    else 0.0
  }

  /** Flat liftgate charge. */
  function LiftgateCharge(liftgate: string): (r: real)
    ensures r == 20.0 <==> liftgate == "Yes"
    ensures r == 0.0 <==> liftgate != "Yes"
  {
    if liftgate == "Yes" then 20.0 else 0.0
  }

  /** Flat residential charge. */
  function ResidentialCharge(residential: string): (r: real)
    ensures r == 15.0 <==> residential == "Yes"
    ensures r == 0.0 <==> residential != "Yes"
  {
    if residential == "Yes" then 15.0 else 0.0
  }

  /** Over-length charge by category: $12 for the first range and $6 more per range above it;
      an unrecognised or empty category costs nothing. */
  function OverLengthCharge(range: string): (r: real)
    ensures range !in OverLengthRanges ==> r == 0.0
    ensures forall i :: 0 <= i < |OverLengthRanges| && OverLengthRanges[i] == range ==>
              r == 12.0 + 6.0 * i as real
  {
    if range == "97-144" then 12.0
    else if range == "145-192" then 18.0
    else if range == "193-240" then 24.0
    else if range == "241 or more" then 30.0
    else 0.0
  }

  /** The over-length charge strictly increases with the severity of the category. */
  lemma OverLengthChargeIncreasing(i: int, j: int)
    requires 0 <= i < j < |OverLengthRanges|
    ensures 0.0 < OverLengthCharge(OverLengthRanges[i]) < OverLengthCharge(OverLengthRanges[j])
  {
  }

  /** Whether a zone takes the cheaper time-specific column (`['A','B','C','D'].includes(zone)`). */
  predicate IsEarlyZone(upperZone: string) {
    upperZone in EarlyZones
  }
}
