/** Zone resolution and lane tagging of the backend's `processPage`, and the page loop of the
    `/api/process-bol` route. What the extraction returns for a page is an input; the state
    pair is looked up in the fixed-price lane table, a valid zone read from the BOL is kept,
    and otherwise the delivery ZIP decides the zone, with the "QUOTE" sentinel as the last
    resort. */
module LaneTagging {
  import opened Wrappers
  import opened Text
  import opened Tables
  import opened Rates

  /** The fields of an extracted page that the tagging reads; "" stands for a missing field. */
  datatype Extraction = Extraction(
    pickupState: string,
    deliveryState: string,
    zone: string,
    deliveryZip: string,
    clientName: string)

  /** `zoneSource`: where the zone came from. */
  datatype ZoneSource = Bol | Zip | Unknown

  /** `isFixedLane`, `laneKey` and `fixedPrice` of a page on a fixed-price lane. */
  datatype FixedLane = FixedLane(laneKey: string, fixedPrice: nat)

  /** What the tagging adds to a page. `zoneSource` stays unset on a fixed lane, and `lane` is
      `None` exactly when `isFixedLane` is false. */
  datatype Tagged = Tagged(zone: string, zoneSource: Option<ZoneSource>, lane: Option<FixedLane>, isLakeshore: bool)

  /** The sentinel zone of a page that must be quoted by hand. */
  const QuoteZone: string := "QUOTE"

  /** `${pickupState}-${deliveryState}`, both upper-cased. */
  function LaneKey(e: Extraction): string {
    ToUpper(e.pickupState) + "-" + ToUpper(e.deliveryState)
  }

  /** A zone read from the BOL is kept when it is non-empty and upper-cases to a valid zone. */
  predicate ValidBolZone(zone: string) {
    zone != "" && ToUpper(zone) in ValidZones
  }

  /** `deliveryZip.replace(/\D/g, '').substring(0, 5)`. */
  function ZipKey(deliveryZip: string): (r: string)
    ensures AllDigits(r) && |r| <= 5
  {
    Prefix(DigitsOnly(deliveryZip), 5)
  }

  /** `clientName.toLowerCase().includes('lakeshore')`. */
  predicate IsLakeshoreClient(clientName: string) {
    Contains(ToLower(clientName), "lakeshore")
  }

  /** The tagging of one extracted page. */
  function ResolvePage(e: Extraction): (t: Tagged)
    // A fixed lane is tagged with its price and leaves the zone alone.
    ensures t.lane.Some? <==> LaneKey(e) in FixedPriceLanes
    ensures t.lane.Some? ==>
              && t.lane.value == FixedLane(LaneKey(e), FixedPriceLanes[LaneKey(e)])
              && t.zone == e.zone && t.zoneSource.None?
    // Otherwise a zone source is always recorded: the BOL, the ZIP, or neither.
    ensures t.lane.None? ==> t.zoneSource.Some?
    ensures t.zoneSource == Some(Bol) <==> t.lane.None? && ValidBolZone(e.zone)
    ensures t.zoneSource == Some(Bol) ==> t.zone == e.zone
    ensures t.zoneSource == Some(Zip) <==>
              t.lane.None? && !ValidBolZone(e.zone) && ZoneOfZipKey(ZipKey(e.deliveryZip)).Some?
    ensures t.zoneSource == Some(Zip) ==> t.zone == [ZoneOfZipKey(ZipKey(e.deliveryZip)).value]
    ensures t.zoneSource == Some(Unknown) <==>
              t.lane.None? && !ValidBolZone(e.zone) && ZoneOfZipKey(ZipKey(e.deliveryZip)).None?
    ensures t.zoneSource == Some(Unknown) ==> t.zone == QuoteZone
    // The Lakeshore flag is independent of the lane.
    ensures t.isLakeshore <==> exists i :: OccursAt(ToLower(e.clientName), "lakeshore", i)
  {
    var lakeshore := IsLakeshoreClient(e.clientName);
    var key := LaneKey(e);
    if key in FixedPriceLanes then
      Tagged(e.zone, None, Some(FixedLane(key, FixedPriceLanes[key])), lakeshore)
    else if ValidBolZone(e.zone) then
      Tagged(e.zone, Some(Bol), None, lakeshore)
    else
      match ZoneOfZipKey(ZipKey(e.deliveryZip))
      case Some(z) => Tagged([z], Some(Zip), None, lakeshore)
      case None => Tagged(QuoteZone, Some(Unknown), None, lakeshore)
  }

  lemma QuoteZoneNotValid()
    ensures ToUpper(QuoteZone) == QuoteZone && QuoteZone !in ValidZones
  {
  }

  /** Off the fixed lanes the tagging and the rate table agree: a page has a rate row exactly
      when its zone source is the BOL or the ZIP table, and a page the tagging cannot place is
      one every calculator answers with "Quote Required". */
  lemma TaggedZonePriceable(e: Extraction)
    ensures ResolvePage(e).lane.None? ==>
              (RatesFor(ResolvePage(e).zone).Some? <==> ResolvePage(e).zoneSource != Some(Unknown))
  {
    var t := ResolvePage(e);
    if t.lane.None? {
      match t.zoneSource.value
      case Bol =>
      case Zip =>
        var key := ZipKey(e.deliveryZip);
        ZipZoneIsPriceable(key);
        var c := ZoneOfZipKey(key).value;
        assert ToUpper([c]) == [c];
      case Unknown =>
        QuoteZoneNotValid();
    }
  }

  // ---------------------------------------------------------------------------------------
  // The page loop.

  /** One entry of `results`: the tagged page with `success: true`, or the page's error with
      `success: false`. */
  datatype PageResult =
    | Processed(pageNumber: nat, extraction: Extraction, tagged: Tagged)
    | Failed(pageNumber: nat, error: string)

  /** The result of one page, numbered from 1; `extraction` is what the extraction returned, or
      the message of the error it threw. */
  function PageOutcome(extraction: Result<Extraction, string>, pageNumber: nat): (r: PageResult)
    ensures r.pageNumber == pageNumber
    ensures r.Processed? <==> extraction.Ok?
    ensures r.Processed? ==> r.extraction == extraction.value && r.tagged == ResolvePage(extraction.value)
    ensures r.Failed? ==> r.error == extraction.error
  {
    match extraction
    case Ok(e) => Processed(pageNumber, e, ResolvePage(e))
    case Err(message) => Failed(pageNumber, message)
  }

  /** The `for` loop over the pages of one PDF: one result per page, in page order; a failed
      page is recorded and the loop goes on with the next. */
  method ProcessPages(extractions: seq<Result<Extraction, string>>) returns (results: seq<PageResult>)
    ensures |results| == |extractions|
    ensures forall i :: 0 <= i < |results| ==> results[i].pageNumber == i + 1
    ensures forall i :: 0 <= i < |results| ==> (results[i].Processed? <==> extractions[i].Ok?)
    ensures forall i :: 0 <= i < |results| && extractions[i].Ok? ==>
              results[i].extraction == extractions[i].value &&
              results[i].tagged == ResolvePage(extractions[i].value)
    ensures forall i :: 0 <= i < |results| ==> results[i] == PageOutcome(extractions[i], i + 1)
    ensures forall i :: 0 <= i < |results| && extractions[i].Err? ==>
              results[i] == Failed(i + 1, extractions[i].error)
  {
    results := [];
    for i := 0 to |extractions|
      invariant |results| == i
      invariant forall j :: 0 <= j < i ==> results[j] == PageOutcome(extractions[j], j + 1)
    {
      results := results + [PageOutcome(extractions[i], i + 1)];
    }
  }

  // ---------------------------------------------------------------------------------------
  // Worked examples.

  /** A Georgia to New Jersey page, whatever the case of its states, is on the $2000 lane and
      keeps the zone read from its BOL, without a zone source. */
  lemma GaNjIsFixedLane()
    ensures ResolvePage(Extraction("ga", "nj", "B", "30002", "")).lane == Some(FixedLane("GA-NJ", 2000))
    ensures ResolvePage(Extraction("ga", "nj", "B", "30002", "")).zone == "B"
    ensures ResolvePage(Extraction("ga", "nj", "B", "30002", "")).zoneSource.None?
  {
    var k := LaneKey(Extraction("ga", "nj", "B", "30002", ""));
    assert k == ['G', 'A', '-', 'N', 'J'];
    assert "GA-NJ" in FixedPriceLanes && FixedPriceLanes["GA-NJ"] == 2000;
  }

  /** A ZIP+4 code is looked up by its five-digit ZIP. */
  lemma ZipKeyOfZipPlusFour(zip: string, plusFour: string)
    requires |zip| == 5 && AllDigits(zip) && AllDigits(plusFour)
    ensures ZipKey(zip + "-" + plusFour) == zip
  {
    assert zip + "-" + plusFour == zip + ("-" + plusFour);
    DigitsOnlyAppend(zip, "-" + plusFour);
    DigitsOnlyAppend("-", plusFour);
    assert DigitsOnly("-") == "";
    assert (zip + plusFour)[..5] == zip;
  }

  /** The numbers the two documented ZIP codes spell. */
  lemma DigitsValueExamples()
    ensures DigitsValue("30002") == 30002 && DigitsValue("30305") == 30305
  {
    assert "30002"[..4] == "3000" && "3000"[..3] == "300" && "300"[..2] == "30" && "30"[..1] == "3";
    assert "30305"[..4] == "3030" && "3030"[..3] == "303" && "303"[..2] == "30";
  }

  /** The documented ZIP lookups: 30002 and 30305 are zone C. */
  lemma ZipZoneExamples()
    ensures ZoneOfZipKey("30002") == Some('C')
    ensures ZoneOfZipKey("30305") == Some('C')
  {
    DigitsValueExamples();
  }

  /** The documented ZIP+4 lookup: 30002-1234 is zone C. */
  lemma ZipPlusFourExample()
    ensures ZoneOfZipKey(ZipKey("30002-1234")) == Some('C')
  {
    assert AllDigits("30002") && AllDigits("1234");
    ZipKeyOfZipPlusFour("30002", "1234");
    assert "30002" + "-" + "1234" == "30002-1234";
    ZipZoneExamples();
  }

  /** A page within Georgia with no zone on its BOL takes the zone of its ZIP+4 code. */
  lemma ZipFallbackExample()
    ensures ResolvePage(Extraction("GA", "GA", "", "30002-1234", "")).zone == "C"
    ensures ResolvePage(Extraction("GA", "GA", "", "30002-1234", "")).zoneSource == Some(Zip)
  {
    var k := LaneKey(Extraction("GA", "GA", "", "30002-1234", ""));
    assert k == ['G', 'A', '-', 'G', 'A'];
    assert "GA-GA" !in FixedPriceLanes && !ValidBolZone("");
    ZipPlusFourExample();
  }

  /** A client name that mentions Lakeshore anywhere, capitalised or in capitals, marks the
      page as a Lakeshore page. */
  lemma NamedLakeshore(before: string, after: string)
    ensures IsLakeshoreClient(before + "Lakeshore" + after)
    ensures IsLakeshoreClient(before + "LAKESHORE" + after)
  {
    var n := |before|;
    var a := ToLower(before + "Lakeshore" + after);
    assert a[n..n + 9] == "lakeshore";
    assert OccursAt(a, "lakeshore", n);
    var b := ToLower(before + "LAKESHORE" + after);
    assert b[n..n + 9] == "lakeshore";
    assert OccursAt(b, "lakeshore", n);
  }

  /** A missing client name is never Lakeshore. */
  lemma MissingClientNotLakeshore(e: Extraction)
    requires e.clientName == ""
    ensures !ResolvePage(e).isLakeshore
  {
  }
}
