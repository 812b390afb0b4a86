/** The pricing helpers of the consolidating revision (`calculateFreight`, `calculateInsideDelivery`,
    `calculateTimeSpecific`, `calculateDetention`, ...) and the pricing of one consolidated
    group. This revision differs from the per-page calculator: "AM Special" costs 28/38,
    detention is proportional, the accessorials are computed even when freight needs a quote
    (the row then shows a "Quote Required" total and only the debris removal among them),
    and `extras` is always reported as 0 while the total adds the accessorials directly. */
module GroupCharges {
  import opened Wrappers
  import opened Text
  import opened Tables
  import opened Shipments
  import opened Rates
  import FrontendCharges

  /** `calculateFreight`: "Quote Required" for a zone that does not upper-case to a rate-table
      key, otherwise the tier rate times the weight, raised to the zone minimum and then
      capped at the zone maximum. */
  function CalculateFreight(zone: string, applicableWeight: real): (r: Money)
    ensures r.QuoteRequired? <==> ToUpper(zone) !in ValidZones
    ensures r.Priced? ==>
              var rates := PriceTable[ToUpper(zone)];
              && rates.min <= r.amount <= rates.max
              && (rates.min <= LinearFreight(rates, applicableWeight) <= rates.max ==>
                    r.amount == LinearFreight(rates, applicableWeight))
              && (LinearFreight(rates, applicableWeight) < rates.min ==> r.amount == rates.min)
              && (LinearFreight(rates, applicableWeight) > rates.max ==> r.amount == rates.max)
  {
    match RatesFor(zone)
    case None => QuoteRequired
    case Some(rates) =>
      ClampOrdersAgree(LinearFreight(rates, applicableWeight), rates.min, rates.max);
      Priced(ClampCapLast(LinearFreight(rates, applicableWeight), rates.min, rates.max))
  }

  /** `calculateInsideDelivery`: any non-empty request is charged, 0.4 cents a pound within
      [$10, $80]. */
  function InsideCharge(inside: string, applicableWeight: real): (r: real)
    ensures inside != "" ==> 10.0 <= r <= 80.0
    ensures inside != "" && 10.0 <= applicableWeight * 0.004 <= 80.0 ==> r == applicableWeight * 0.004
    // Under 2500 lb the $10 floor applies, over 20000 lb the $80 cap.
    ensures inside != "" && applicableWeight < 2500.0 ==> r == 10.0
    ensures inside != "" && applicableWeight > 20000.0 ==> r == 80.0
    ensures inside == "" ==> r == 0.0
  {
    if inside == "" then 0.0
    else
      ClampOrdersAgree(applicableWeight * 0.004, 10.0, 80.0);
      ClampCapLast(applicableWeight * 0.004, 10.0, 80.0)
  }

  /** `calculateTimeSpecific`: AM Special 28/38, 2 Hours 38/48, 15 Minutes 53/63 for zones
      A-D / E-L, nothing for an empty or unrecognised category. */
  function TimeSpecificCharge(category: string, zone: string): real {
    var early := IsEarlyZone(ToUpper(zone));
    if category == "" then 0.0
    else if category == "AM Special" then (if early then 28.0 else 38.0)
    else if category == "2 Hours" then (if early then 38.0 else 48.0)
    else if category == "15 Minutes" then (if early then 53.0 else 63.0)
    else 0.0
  }

  /** `calculateDetention`: the first 30 minutes are free, then $36 an hour, pro rata. */
  function DetentionCharge(minutes: real): (r: real)
    ensures minutes <= 30.0 ==> r == 0.0
    ensures minutes > 30.0 ==> r > 0.0 && r * 60.0 == (minutes - 30.0) * 36.0
  {
    if minutes <= 30.0 then 0.0 else (minutes - 30.0) / 60.0 * 36.0
  }

  /** The seven accessorials of a consolidated group, given the weight it bills. */
  function GroupAccessorials(g: Shipment, applicableWeight: real): (a: Accessorials)
    ensures a.debris == DebrisCharge(g.palletCount, g.hasDebrisSection, g.isLakeshore)
    ensures a.liftgate == LiftgateCharge(g.liftgate)
    ensures a.inside == InsideCharge(g.inside, applicableWeight)
    ensures a.overLength == OverLengthCharge(g.overLength)
    ensures a.residential == ResidentialCharge(g.residential)
    ensures a.timeSpecific == TimeSpecificCharge(g.timeSpecific, g.zone)
    ensures a.detention == DetentionCharge(g.detention)
  {
    Accessorials(
      DebrisCharge(g.palletCount, g.hasDebrisSection, g.isLakeshore),
      LiftgateCharge(g.liftgate),
      InsideCharge(g.inside, applicableWeight),
      OverLengthCharge(g.overLength),
      ResidentialCharge(g.residential),
      TimeSpecificCharge(g.timeSpecific, g.zone),
      DetentionCharge(g.detention))
  }

  /** The charges of one consolidated group. `chargeable` is the applicable weight, the larger
      of the actual and the dimensional weight. */
  function PriceGroup(g: Shipment, fuelSurchargePercent: real): (r: Charges)
    ensures r.chargeable >= g.weight && r.chargeable >= ChargeableWeight(g.volumeFt3)
    ensures r.chargeable == g.weight || r.chargeable == ChargeableWeight(g.volumeFt3)
    ensures r.freight == CalculateFreight(g.zone, r.chargeable)
    ensures r.fuelSurcharge == FuelSurcharge(r.freight, fuelSurchargePercent)
    ensures r.total.QuoteRequired? <==> r.freight.QuoteRequired?
    // The accessorials are computed whether or not freight is priced; `extras` stays 0.
    ensures r.accessorials == GroupAccessorials(g, r.chargeable)
    ensures r.extras == 0.0
    ensures r.freight.Priced? ==>
              r.total.amount == r.freight.amount + r.fuelSurcharge.amount + Sum(r.accessorials)
  {
    var w := ApplicableWeight(g.weight, ChargeableWeight(g.volumeFt3));
    var freight := CalculateFreight(g.zone, w);
    var fuel := FuelSurcharge(freight, fuelSurchargePercent);
    var acc := GroupAccessorials(g, w);
    var total :=
      match freight
      case QuoteRequired => QuoteRequired
      case Priced(f) => Priced(f + fuel.amount + Sum(acc) + 0.0);
    Charges(w, freight, fuel, acc, 0.0, total)
  }

  // ---------------------------------------------------------------------------------------
  // How the two revisions of the calculator relate.

  /** Ceil-per-hour detention never bills less than the pro-rata one, by less than one hour,
      and the two agree exactly when the billable time is a whole number of hours. */
  lemma DetentionRevisionsCompared(minutes: real)
    ensures DetentionCharge(minutes) <= FrontendCharges.DetentionCharge(minutes)
    ensures FrontendCharges.DetentionCharge(minutes) < DetentionCharge(minutes) + 36.0
    ensures FrontendCharges.DetentionCharge(minutes) == DetentionCharge(minutes) <==>
              minutes <= 30.0 || FrontendCharges.Ceil((minutes - 30.0) / 60.0) as real == (minutes - 30.0) / 60.0
  {
    if minutes > 30.0 {
      var h := (minutes - 30.0) / 60.0;
      var n := FrontendCharges.Ceil(h);
      assert DetentionCharge(minutes) == h * 36.0;
      assert FrontendCharges.DetentionCharge(minutes) == 36.0 * n as real;
    }
  }

  /** The revisions price the time windows alike except "AM Special", which costs $5 more in
      the consolidating revision. */
  lemma TimeSpecificRevisionsCompared(category: string, zone: string)
    ensures category != "AM Special" ==>
              TimeSpecificCharge(category, zone) == FrontendCharges.TimeSpecificCharge(category, ToUpper(zone))
    ensures category == "AM Special" ==>
              TimeSpecificCharge(category, zone) == FrontendCharges.TimeSpecificCharge(category, ToUpper(zone)) + 5.0
  {
  }

  /** On a well-formed request ("Yes" or "") the two inside-delivery charges agree, although
      their clamps are written in opposite orders. */
  lemma InsideRevisionsAgree(inside: string, applicableWeight: real)
    requires inside == "Yes" || inside == ""
    ensures InsideCharge(inside, applicableWeight) == FrontendCharges.InsideCharge(inside, applicableWeight)
  {
    ClampOrdersAgree(applicableWeight * 0.004, 10.0, 80.0);
  }

  /** An unknown zone: the per-page calculator reports no accessorials besides the sentinel,
      while the consolidating revision still computes every accessorial; of those its row shows
      the debris removal, which is $3 a pallet whenever debris is flagged. */
  lemma QuotePathsDiffer(g: Shipment, fuelSurchargePercent: real)
    requires ToUpper(g.zone) !in ValidZones
    ensures FrontendCharges.CalculateCharges(g, fuelSurchargePercent).accessorials == NoAccessorials
    ensures PriceGroup(g, fuelSurchargePercent).freight.QuoteRequired?
    ensures PriceGroup(g, fuelSurchargePercent).total.QuoteRequired?
    ensures g.hasDebrisSection || g.isLakeshore ==>
              PriceGroup(g, fuelSurchargePercent).accessorials.debris == 3.0 * g.palletCount
  {
  }
}
