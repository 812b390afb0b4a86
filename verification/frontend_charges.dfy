/** The per-page charge calculator of the front-end revision (`calculateCharges`): an unknown
    zone short-circuits to "Quote Required" with no accessorials; otherwise freight, fuel and
    seven accessorials are computed, with the time-specific prices of TIME_SPECIFIC_CHARGES and
    detention billed per started hour. */
module FrontendCharges {
  import opened Wrappers
  import opened Text
  import opened Tables
  import opened Shipments
  import opened Rates

  /** `Math.ceil`: the least integer not below `x`. */
  function Ceil(x: real): (n: int)
    ensures n as real - 1.0 < x <= n as real
  {
    if x == x.Floor as real then x.Floor else x.Floor + 1
  }

  /** Detention: the first 30 minutes are free, then $36 for every started hour. */
  function DetentionCharge(minutes: real): (r: real)
    ensures minutes <= 30.0 ==> r == 0.0
    ensures minutes > 30.0 ==>
              var hours := Ceil((minutes - 30.0) / 60.0);
              hours >= 1 && r == 36.0 * hours as real
  {
    if minutes > 30.0 then (Ceil((minutes - 30.0) / 60.0) * 36) as real else 0.0
  }

  /** The grace period and the hour steps: 30 minutes cost nothing, 31 and 90 minutes one hour,
      91 minutes two hours. */
  lemma DetentionExamples()
    ensures DetentionCharge(30.0) == 0.0
    ensures DetentionCharge(31.0) == 36.0
    ensures DetentionCharge(90.0) == 36.0
    ensures DetentionCharge(91.0) == 72.0
  {
    assert Ceil(1.0 / 60.0) == 1;
    assert Ceil(60.0 / 60.0) == 1;
    assert Ceil(61.0 / 60.0) == 2;
  }

  /** The time-specific charge as `calculateCharges` writes it inline: AM Special 23/33,
      2 Hours 38/48, 15 Minutes 53/63 for zones A-D / E-L. */
  function TimeSpecificCharge(category: string, upperZone: string): real {
    var early := IsEarlyZone(upperZone);
    if category == "" then 0.0
    else if category == "AM Special" then (if early then 23.0 else 33.0)
    else if category == "2 Hours" then (if early then 38.0 else 48.0)
    else if category == "15 Minutes" then (if early then 53.0 else 63.0)
    else 0.0
  }

  /** The inline prices agree with the TIME_SPECIFIC_CHARGES table cell for cell, and an
      unrecognised category costs nothing. */
  lemma TimeSpecificMatchesTable(category: string, upperZone: string)
    ensures category in TimeSpecificCharges ==>
              TimeSpecificCharge(category, upperZone)
              == if IsEarlyZone(upperZone) then TimeSpecificCharges[category].early
                 else TimeSpecificCharges[category].other
    ensures category !in TimeSpecificCharges ==> TimeSpecificCharge(category, upperZone) == 0.0
  {
  }

  /** Inside delivery: when requested with "Yes", 0.4 cents a pound, at least $10 and at most $80. */
  function InsideCharge(inside: string, applicableWeight: real): (r: real)
    ensures inside == "Yes" ==> 10.0 <= r <= 80.0
    ensures inside == "Yes" && 10.0 <= applicableWeight * 0.004 <= 80.0 ==> r == applicableWeight * 0.004
    // Under 2500 lb the $10 floor applies, over 20000 lb the $80 cap.
    ensures inside == "Yes" && applicableWeight < 2500.0 ==> r == 10.0
    ensures inside == "Yes" && applicableWeight > 20000.0 ==> r == 80.0
    ensures inside != "Yes" ==> r == 0.0
  {
    if inside == "Yes" then ClampFloorLast(applicableWeight * 0.004, 10.0, 80.0) else 0.0
  }

  /** `data.volumeFt3 || data.volume || 0`: the volume field, or the fallback field when it is 0. */
  function PageVolume(d: Shipment): real {
    if d.volumeFt3 != 0.0 then d.volumeFt3 else d.volume
  }

  /** The seven accessorials `calculateCharges` computes for a priced page, given the weight
      it bills. */
  function PageAccessorials(d: Shipment, applicableWeight: real): (a: Accessorials)
    ensures a.debris == DebrisCharge(d.palletCount, d.hasDebrisSection, d.isLakeshore)
    ensures a.liftgate == LiftgateCharge(d.liftgate)
    ensures a.inside == InsideCharge(d.inside, applicableWeight)
    ensures a.overLength == OverLengthCharge(d.overLength)
    ensures a.residential == ResidentialCharge(d.residential)
    ensures a.timeSpecific == TimeSpecificCharge(d.timeSpecific, ToUpper(d.zone))
    ensures a.detention == DetentionCharge(d.detention)
  {
    Accessorials(
      DebrisCharge(d.palletCount, d.hasDebrisSection, d.isLakeshore),
      LiftgateCharge(d.liftgate),
      InsideCharge(d.inside, applicableWeight),
      OverLengthCharge(d.overLength),
      ResidentialCharge(d.residential),
      TimeSpecificCharge(d.timeSpecific, ToUpper(d.zone)),
      DetentionCharge(d.detention))
  }

  /** The priced branch of `calculateCharges`: a page whose zone has the rate row `rates`. */
  function PricedCharges(d: Shipment, rates: ZoneRates, fuelSurchargePercent: real): (r: Charges)
    requires rates.min <= rates.max
    ensures r.freight.Priced? && r.fuelSurcharge.Priced? && r.total.Priced?
    // Freight within the zone's bounds and the tier rate times the billed weight inside them.
    ensures r.chargeable == ChargeableWeight(PageVolume(d))
    ensures rates.min <= r.freight.amount <= rates.max
    ensures var w := ApplicableWeight(d.weight, r.chargeable);
            rates.min <= LinearFreight(rates, w) <= rates.max ==> r.freight.amount == LinearFreight(rates, w)
    // Below the zone minimum freight is the minimum, above the maximum it is the maximum.
    ensures var w := ApplicableWeight(d.weight, r.chargeable);
            LinearFreight(rates, w) < rates.min ==> r.freight.amount == rates.min
    ensures var w := ApplicableWeight(d.weight, r.chargeable);
            LinearFreight(rates, w) > rates.max ==> r.freight.amount == rates.max
    // Fuel proportional to freight, extras the sum of the accessorials, total their sum.
    ensures r.fuelSurcharge == FuelSurcharge(r.freight, fuelSurchargePercent)
    ensures r.extras == Sum(r.accessorials)
    ensures r.total.amount == r.freight.amount + r.fuelSurcharge.amount + r.extras
    ensures r.accessorials == PageAccessorials(d, ApplicableWeight(d.weight, r.chargeable))
  {
    var chargeable := ChargeableWeight(PageVolume(d));
    var w := ApplicableWeight(d.weight, chargeable);
    ClampOrdersAgree(LinearFreight(rates, w), rates.min, rates.max);
    var freight := ClampFloorLast(LinearFreight(rates, w), rates.min, rates.max);
    var fuel := FuelSurcharge(Priced(freight), fuelSurchargePercent);
    var acc := PageAccessorials(d, w);
    var extras := Sum(acc);
    Charges(chargeable, Priced(freight), fuel, acc, extras, Priced(freight + fuel.amount + extras))
  }

  /** `calculateCharges` on one extracted page, with the operator's fuel-surcharge fraction:
      "Quote Required" with nothing charged exactly when the upper-cased zone is not a rate-table
      key, the priced branch otherwise. */
  function CalculateCharges(d: Shipment, fuelSurchargePercent: real): (r: Charges)
    ensures r.freight.QuoteRequired? <==> ToUpper(d.zone) !in ValidZones
    ensures r.fuelSurcharge.QuoteRequired? <==> r.freight.QuoteRequired?
    ensures r.total.QuoteRequired? <==> r.freight.QuoteRequired?
    ensures r.freight.QuoteRequired? ==>
              r.accessorials == NoAccessorials && r.extras == 0.0 && r.chargeable == 0.0
    ensures ToUpper(d.zone) in ValidZones ==>
              r == PricedCharges(d, PriceTable[ToUpper(d.zone)], fuelSurchargePercent)
  {
    match RatesFor(d.zone)
    case None =>
      Charges(0.0, QuoteRequired, QuoteRequired, NoAccessorials, 0.0, QuoteRequired)
    case Some(rates) =>
      PricedCharges(d, rates, fuelSurchargePercent)
  }
}
