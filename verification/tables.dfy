/** The static business data of the pricing engine: the zone rate table (identical in both
    front-end revisions), the valid zone letters and fixed-price lanes of the backend, and the
    time-specific charge table of the per-shipment calculator. */
module Tables {
  import opened Wrappers
  import opened Text
  import ZipTable

  /** One row of PRICE_TABLE: a $/lb rate per weight tier, and the freight floor and cap. */
  datatype ZoneRates = ZoneRates(r10000: real, r5000: real, r2000: real, r1000: real, min: real, max: real)

  const PriceTable: map<string, ZoneRates> := map[
    "A" := ZoneRates(0.0121, 0.0129, 0.0137, 0.0144, 18.00, 160.00),
    "B" := ZoneRates(0.0132, 0.0140, 0.0147, 0.0157, 20.00, 180.00),
    "C" := ZoneRates(0.0143, 0.0150, 0.0160, 0.0169, 22.00, 200.00),
    "D" := ZoneRates(0.0154, 0.0163, 0.0173, 0.0183, 24.00, 220.00),
    "E" := ZoneRates(0.0183, 0.0195, 0.0204, 0.0218, 26.00, 240.00),
    "F" := ZoneRates(0.0198, 0.0209, 0.0221, 0.0235, 28.00, 260.00),
    "G" := ZoneRates(0.0213, 0.0226, 0.0239, 0.0253, 31.00, 290.00),
    "H" := ZoneRates(0.0230, 0.0243, 0.0258, 0.0273, 34.00, 320.00),
    "I" := ZoneRates(0.0249, 0.0262, 0.0279, 0.0295, 37.00, 350.00),
    "J" := ZoneRates(0.0267, 0.0284, 0.0301, 0.0319, 40.00, 380.00),
    "K" := ZoneRates(0.0289, 0.0307, 0.0325, 0.0344, 43.00, 400.00),
    "L" := ZoneRates(0.0313, 0.0332, 0.0352, 0.0371, 46.00, 420.00)
  ]

  /** VALID_ZONES of the backend. */
  const ValidZones: seq<string> := ["A", "B", "C", "D", "E", "F", "G", "H", "I", "J", "K", "L"]

  /** The zones whose time-specific deliveries take the cheaper column. */
  const EarlyZones: seq<string> := ["A", "B", "C", "D"]

  /** FIXED_PRICE_LANES: "<pickup state>-<delivery state>" to a flat price in dollars. */
  const FixedPriceLanes: map<string, nat> := map["GA-NJ" := 2000, "CA-GA" := 6000, "GA-CA" := 3600]

  /** A row of TIME_SPECIFIC_CHARGES: the charge in zones A-D and in zones E-L. */
  datatype ZonePair = ZonePair(early: real, other: real)

  /** TIME_SPECIFIC_CHARGES of the front end. */
  const TimeSpecificCharges: map<string, ZonePair> := map[
    "AM Special" := ZonePair(23.0, 33.0),
    "2 Hours" := ZonePair(38.0, 48.0),
    "15 Minutes" := ZonePair(53.0, 63.0)
  ]

  /** A ZIP key resolved through the table: only a five-character key can equal a key of the
      table, and a five-digit key is looked up by the number it spells. */
  function ZoneOfZipKey(key: string): (z: Option<char>)
    ensures z.Some? ==> |key| == 5 && AllDigits(key) && 'A' <= z.value <= 'L'
  {
    if |key| == 5 && AllDigits(key) then ZipTable.ZoneOfZip(DigitsValue(key)) else None
  }

  /** The rate table is keyed by exactly the backend's valid zones, so a zone the backend keeps
      or derives is a zone the calculators can price. */
  lemma PriceTableCoversValidZones(z: string)
    ensures z in PriceTable <==> z in ValidZones
  {
  }

  /** Every row of the rate table has a floor below its cap, and heavier tiers never cost more
      per pound. */
  lemma ZoneRatesWellFormed(z: string)
    requires z in PriceTable
    ensures 0.0 < PriceTable[z].min <= PriceTable[z].max
    ensures 0.0 < PriceTable[z].r10000 <= PriceTable[z].r5000 <= PriceTable[z].r2000 <= PriceTable[z].r1000
  {
  }

  /** Every zone the ZIP table yields is one of the valid zones, hence a key of the rate table. */
  lemma ZipZoneIsPriceable(key: string)
    requires ZoneOfZipKey(key).Some?
    ensures [ZoneOfZipKey(key).value] in ValidZones
    ensures [ZoneOfZipKey(key).value] in PriceTable
  {
    var c := ZoneOfZipKey(key).value;
    assert [c] == ValidZones[c as int - 'A' as int];
  }

  /** Time-specific charges in zones A-D are exactly $10 below those in zones E-L. */
  lemma TimeSpecificEarlyDiscount(category: string)
    requires category in TimeSpecificCharges
    ensures TimeSpecificCharges[category].early + 10.0 == TimeSpecificCharges[category].other
  {
  }
}
