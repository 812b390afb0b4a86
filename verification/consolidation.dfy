/** `consolidateMultiPageBOLs`: pages that deliver to the same normalised address are merged
    into one shipment (amounts summed, "Yes" requests and flags kept if any page has them, the
    most severe over-length and the most restrictive time window kept), a page with no usable
    address stays on its own, and every group is priced once.

    The merge is modelled as the fold the source performs, page by page in arrival order, and
    `Summarizes` states what the merged record holds in terms of the pages alone. */
module Consolidation {
  import opened Wrappers
  import opened Text
  import opened Shipments
  import opened Rates
  import opened Address
  import opened GroupCharges
  import opened Grouping

  // ---------------------------------------------------------------------------------------
  // Merging one page into a group.

  /** A group: the merged record, the pages merged into it in arrival order, whether it holds
      more than one page, and the PROs joined with " + ". */
  datatype Group = Group(rec: Shipment, pages: seq<Shipment>, isMultiPage: bool, originalPro: string)

  /** `ranges.indexOf(x)`: the position of an over-length category, or -1. */
  function LengthRank(range: string): (r: int)
    ensures -1 <= r < |OverLengthRanges|
    ensures r >= 0 ==> OverLengthRanges[r] == range
    ensures r == -1 <==> range !in OverLengthRanges
  {
    if range == "97-144" then 0
    else if range == "145-192" then 1
    else if range == "193-240" then 2
    else if range == "241 or more" then 3
    else -1
  }

  /** The order the consolidator keeps time windows by: "15 Minutes" over "AM Special" over
      "2 Hours" over none. */
  function TimeRank(window: string): (r: int)
    ensures -1 <= r <= 3
    ensures window == "" ==> r == 0
    ensures 1 <= r <==> window in TimeWindows
    ensures r >= 1 ==> TimeWindows[r - 1] == window
  {
    if window == "" then 0
    else if window == "2 Hours" then 1
    else if window == "AM Special" then 2
    else if window == "15 Minutes" then 3
    else -1
  }

  /** Over-length: a non-empty incoming category replaces the current one when the current one is
      not a known category or the incoming one is more severe. */
  function MergeOverLength(current: string, incoming: string): string {
    if incoming == "" then current
    else if LengthRank(current) == -1 || LengthRank(incoming) > LengthRank(current) then incoming
    else current
  }

  /** Time window: a non-empty incoming window is taken over an empty current one, "15 Minutes"
      always wins, and "AM Special" wins unless "15 Minutes" is already kept. */
  function MergeTimeSpecific(current: string, incoming: string): string {
    if incoming == "" then current
    else if current == "" then incoming
    else if incoming == "15 Minutes" then "15 Minutes"
    else if incoming == "AM Special" && current != "15 Minutes" then "AM Special"
    else current
  }

  /** `if (x === "Yes") group.x = "Yes"`. */
  function YesIfAny(current: string, incoming: string): string {
    if incoming == "Yes" then "Yes" else current
  }

  /** The record after merging another page into it; everything not merged (PRO, driver, zone,
      address, `volume`) stays as the first page had it. */
  function MergePage(rec: Shipment, page: Shipment): Shipment {
    rec.(
      weight := rec.weight + page.weight,
      volumeFt3 := rec.volumeFt3 + page.volumeFt3,
      overLength := MergeOverLength(rec.overLength, page.overLength),
      palletCount := rec.palletCount + page.palletCount,
      liftgate := YesIfAny(rec.liftgate, page.liftgate),
      inside := YesIfAny(rec.inside, page.inside),
      residential := YesIfAny(rec.residential, page.residential),
      hasDebrisSection := rec.hasDebrisSection || page.hasDebrisSection,
      isLakeshore := rec.isLakeshore || page.isLakeshore,
      timeSpecific := MergeTimeSpecific(rec.timeSpecific, page.timeSpecific),
      detention := rec.detention + page.detention)
  }

  /** A group holding one page: the page itself, not multi-page, its own PRO. */
  function StartGroup(page: Shipment): Group {
    Group(page, [page], false, page.pro)
  }

  /** Another page for the same address: merged, appended, multi-page, PRO appended. */
  function AddPage(g: Group, page: Shipment): Group {
    Group(MergePage(g.rec, page), g.pages + [page], true, g.originalPro + " + " + page.pro)
  }

  /** The group the consolidator builds from `pages`, all for one address, in arrival order. */
  function GroupOf(pages: seq<Shipment>): Group
    requires pages != []
    decreases |pages|
  {
    if |pages| == 1 then StartGroup(pages[0])
    else AddPage(GroupOf(pages[..|pages| - 1]), pages[|pages| - 1])
  }

  // ---------------------------------------------------------------------------------------
  // What a merged record holds.

  /** The four amounts that are summed. */
  datatype Measure = Weight | Volume | Pallets | DetentionMinutes

  function Amount(s: Shipment, m: Measure): real {
    match m
    case Weight => s.weight
    case Volume => s.volumeFt3
    case Pallets => s.palletCount
    case DetentionMinutes => s.detention
  }

  function Total(pages: seq<Shipment>, m: Measure): real
    decreases |pages|
  {
    if pages == [] then 0.0 else Total(pages[..|pages| - 1], m) + Amount(pages[|pages| - 1], m)
  }

  /** The three "Yes"/"" requests. */
  datatype Request = Liftgate | Inside | Residential

  function Requested(s: Shipment, q: Request): string {
    match q
    case Liftgate => s.liftgate
    case Inside => s.inside
    case Residential => s.residential
  }

  predicate AnyYes(pages: seq<Shipment>, q: Request) {
    exists i :: 0 <= i < |pages| && Requested(pages[i], q) == "Yes"
  }

  predicate KnownLengths(pages: seq<Shipment>) {
    forall i :: 0 <= i < |pages| ==> pages[i].overLength == "" || pages[i].overLength in OverLengthRanges
  }

  predicate KnownTimes(pages: seq<Shipment>) {
    forall i :: 0 <= i < |pages| ==> pages[i].timeSpecific == "" || pages[i].timeSpecific in TimeWindows
  }

  function Pros(pages: seq<Shipment>): (r: seq<string>)
    ensures |r| == |pages| && forall i :: 0 <= i < |pages| ==> r[i] == pages[i].pro
  {
    seq(|pages|, i requires 0 <= i < |pages| => pages[i].pro)
  }

  predicate Totals(rec: Shipment, pages: seq<Shipment>) {
    && rec.weight == Total(pages, Weight)
    && rec.volumeFt3 == Total(pages, Volume)
    && rec.palletCount == Total(pages, Pallets)
    && rec.detention == Total(pages, DetentionMinutes)
  }

  /** A request is "Yes" if any page asks for it, and otherwise what the first page said. */
  predicate Requests(rec: Shipment, pages: seq<Shipment>)
    requires pages != []
  {
    forall q :: Requested(rec, q) == if AnyYes(pages, q) then "Yes" else Requested(pages[0], q)
  }

  predicate Flags(rec: Shipment, pages: seq<Shipment>) {
    && (rec.hasDebrisSection <==> exists i :: 0 <= i < |pages| && pages[i].hasDebrisSection)
    && (rec.isLakeshore <==> exists i :: 0 <= i < |pages| && pages[i].isLakeshore)
  }

  /** The kept over-length is empty exactly when every page's is, and among known categories
      it is the most severe one some page names. */
  predicate MostSevereLength(rec: Shipment, pages: seq<Shipment>) {
    && (rec.overLength == "" <==> forall i :: 0 <= i < |pages| ==> pages[i].overLength == "")
    && (KnownLengths(pages) ==>
          && (exists i :: 0 <= i < |pages| && pages[i].overLength == rec.overLength)
          && forall i :: 0 <= i < |pages| ==> LengthRank(pages[i].overLength) <= LengthRank(rec.overLength))
  }

  /** The kept time window is empty exactly when every page's is, and among known windows it
      is the most restrictive one some page names. */
  predicate MostRestrictiveTime(rec: Shipment, pages: seq<Shipment>) {
    && (rec.timeSpecific == "" <==> forall i :: 0 <= i < |pages| ==> pages[i].timeSpecific == "")
    && (KnownTimes(pages) ==>
          && (exists i :: 0 <= i < |pages| && pages[i].timeSpecific == rec.timeSpecific)
          && forall i :: 0 <= i < |pages| ==> TimeRank(pages[i].timeSpecific) <= TimeRank(rec.timeSpecific))
  }

  predicate FirstPageIdentity(rec: Shipment, pages: seq<Shipment>)
    requires pages != []
  {
    && rec.pro == pages[0].pro
    && rec.driver == pages[0].driver
    && rec.zone == pages[0].zone
    && rec.deliveryAddress == pages[0].deliveryAddress
    && rec.volume == pages[0].volume
  }

  /** A group is an honest summary of its pages. */
  predicate Summarizes(g: Group) {
    && g.pages != []
    && Totals(g.rec, g.pages)
    && Requests(g.rec, g.pages)
    && Flags(g.rec, g.pages)
    && MostSevereLength(g.rec, g.pages)
    && MostRestrictiveTime(g.rec, g.pages)
    && FirstPageIdentity(g.rec, g.pages)
    && g.originalPro == Join(Pros(g.pages), " + ")
    && (g.isMultiPage <==> |g.pages| >= 2)
  }

  // ---------------------------------------------------------------------------------------
  // The severity merges keep the maximum.

  /** On known categories the over-length merge keeps the more severe one. */
  lemma MergeOverLengthIsMax(a: string, b: string)
    requires a == "" || a in OverLengthRanges
    requires b == "" || b in OverLengthRanges
    ensures MergeOverLength(a, b) == if LengthRank(b) > LengthRank(a) then b else a
  {
  }

  /** On known windows the time-window merge keeps the more restrictive one. */
  lemma MergeTimeSpecificIsMax(a: string, b: string)
    requires a == "" || a in TimeWindows
    requires b == "" || b in TimeWindows
    ensures MergeTimeSpecific(a, b) == if TimeRank(b) > TimeRank(a) then b else a
  {
  }

  /** On known values the order pages arrive in does not change the kept category or window. */
  lemma SeverityMergesCommute(a: string, b: string, c: string, d: string)
    requires a == "" || a in OverLengthRanges
    requires b == "" || b in OverLengthRanges
    requires c == "" || c in TimeWindows
    requires d == "" || d in TimeWindows
    ensures MergeOverLength(a, b) == MergeOverLength(b, a)
    ensures MergeTimeSpecific(c, d) == MergeTimeSpecific(d, c)
  {
    MergeOverLengthIsMax(a, b);
    MergeOverLengthIsMax(b, a);
    MergeTimeSpecificIsMax(c, d);
    MergeTimeSpecificIsMax(d, c);
  }

  /** ... and neither does how the pages are grouped. */
  lemma SeverityMergesAssociate(a: string, b: string, c: string, x: string, y: string, z: string)
    requires a == "" || a in OverLengthRanges
    requires b == "" || b in OverLengthRanges
    requires c == "" || c in OverLengthRanges
    requires x == "" || x in TimeWindows
    requires y == "" || y in TimeWindows
    requires z == "" || z in TimeWindows
    ensures MergeOverLength(MergeOverLength(a, b), c) == MergeOverLength(a, MergeOverLength(b, c))
    ensures MergeTimeSpecific(MergeTimeSpecific(x, y), z) == MergeTimeSpecific(x, MergeTimeSpecific(y, z))
  {
    MergeOverLengthIsMax(a, b);
    MergeOverLengthIsMax(b, c);
    MergeOverLengthIsMax(MergeOverLength(a, b), c);
    MergeOverLengthIsMax(a, MergeOverLength(b, c));
    MergeTimeSpecificIsMax(x, y);
    MergeTimeSpecificIsMax(y, z);
    MergeTimeSpecificIsMax(MergeTimeSpecific(x, y), z);
    MergeTimeSpecificIsMax(x, MergeTimeSpecific(y, z));
  }

  // ---------------------------------------------------------------------------------------
  // Adding a page keeps the summary.

  lemma TotalsAfterAdd(rec: Shipment, pages: seq<Shipment>, page: Shipment)
    requires Totals(rec, pages)
    ensures Totals(MergePage(rec, page), pages + [page])
  {
    var ps := pages + [page];
    assert ps[..|ps| - 1] == pages;
  }

  lemma AnyYesAfterAdd(pages: seq<Shipment>, page: Shipment, q: Request)
    ensures AnyYes(pages + [page], q) <==> AnyYes(pages, q) || Requested(page, q) == "Yes"
  {
    var ps := pages + [page];
    if AnyYes(pages, q) {
      var i :| 0 <= i < |pages| && Requested(pages[i], q) == "Yes";
      assert ps[i] == pages[i];
    }
    if Requested(page, q) == "Yes" {
      assert ps[|pages|] == page;
    }
    if AnyYes(ps, q) {
      var i :| 0 <= i < |ps| && Requested(ps[i], q) == "Yes";
      if i < |pages| {
        assert ps[i] == pages[i];
      }
    }
  }

  lemma RequestsAfterAdd(rec: Shipment, pages: seq<Shipment>, page: Shipment)
    requires pages != [] && Requests(rec, pages)
    ensures Requests(MergePage(rec, page), pages + [page])
  {
    var ps := pages + [page];
    assert ps[0] == pages[0];
    forall q ensures Requested(MergePage(rec, page), q) == if AnyYes(ps, q) then "Yes" else Requested(ps[0], q) {
      AnyYesAfterAdd(pages, page, q);
      assert Requested(MergePage(rec, page), q) == YesIfAny(Requested(rec, q), Requested(page, q));
    }
  }

  lemma FlagsAfterAdd(rec: Shipment, pages: seq<Shipment>, page: Shipment)
    requires Flags(rec, pages)
    ensures Flags(MergePage(rec, page), pages + [page])
  {
    var ps := pages + [page];
    assert forall i :: 0 <= i < |pages| ==> ps[i] == pages[i];
    assert ps[|pages|] == page;
  }

  lemma LengthAfterAdd(rec: Shipment, pages: seq<Shipment>, page: Shipment)
    requires pages != [] && MostSevereLength(rec, pages)
    ensures MostSevereLength(MergePage(rec, page), pages + [page])
  {
    var ps := pages + [page];
    assert forall i :: 0 <= i < |pages| ==> ps[i] == pages[i];
    assert ps[|pages|] == page;
    if KnownLengths(ps) {
      KnownLengthAfterAdd(rec, pages, page);
    }
  }

  lemma KnownLengthAfterAdd(rec: Shipment, pages: seq<Shipment>, page: Shipment)
    requires pages != [] && MostSevereLength(rec, pages) && KnownLengths(pages + [page])
    ensures var kept := MergeOverLength(rec.overLength, page.overLength);
            && (exists i :: 0 <= i < |pages + [page]| && (pages + [page])[i].overLength == kept)
            && forall i :: 0 <= i < |pages + [page]| ==> LengthRank((pages + [page])[i].overLength) <= LengthRank(kept)
  {
    var ps := pages + [page];
    var kept := MergeOverLength(rec.overLength, page.overLength);
    assert KnownLengths(pages) by {
      forall i | 0 <= i < |pages| ensures pages[i].overLength == "" || pages[i].overLength in OverLengthRanges {
        assert ps[i] == pages[i];
      }
    }
    assert LengthRank(rec.overLength) <= LengthRank(kept) && LengthRank(page.overLength) <= LengthRank(kept) by {
      assert ps[|pages|] == page;
      MergeOverLengthIsMax(rec.overLength, page.overLength);
    }
    var j :| 0 <= j < |pages| && pages[j].overLength == rec.overLength;
    assert ps[j] == pages[j];
    assert ps[|pages|] == page;
    if kept == rec.overLength {
      assert ps[j].overLength == kept;
    } else {
      MergeOverLengthIsMax(rec.overLength, page.overLength);
      assert ps[|pages|].overLength == kept;
    }
    forall i | 0 <= i < |ps| ensures LengthRank(ps[i].overLength) <= LengthRank(kept) {
      if i < |pages| {
        assert ps[i] == pages[i];
      }
    }
  }

  lemma TimeAfterAdd(rec: Shipment, pages: seq<Shipment>, page: Shipment)
    requires pages != [] && MostRestrictiveTime(rec, pages)
    ensures MostRestrictiveTime(MergePage(rec, page), pages + [page])
  {
    var ps := pages + [page];
    assert forall i :: 0 <= i < |pages| ==> ps[i] == pages[i];
    assert ps[|pages|] == page;
    if KnownTimes(ps) {
      KnownTimeAfterAdd(rec, pages, page);
    }
  }

  lemma KnownTimeAfterAdd(rec: Shipment, pages: seq<Shipment>, page: Shipment)
    requires pages != [] && MostRestrictiveTime(rec, pages) && KnownTimes(pages + [page])
    ensures var kept := MergeTimeSpecific(rec.timeSpecific, page.timeSpecific);
            && (exists i :: 0 <= i < |pages + [page]| && (pages + [page])[i].timeSpecific == kept)
            && forall i :: 0 <= i < |pages + [page]| ==> TimeRank((pages + [page])[i].timeSpecific) <= TimeRank(kept)
  {
    var ps := pages + [page];
    var kept := MergeTimeSpecific(rec.timeSpecific, page.timeSpecific);
    assert KnownTimes(pages) by {
      forall i | 0 <= i < |pages| ensures pages[i].timeSpecific == "" || pages[i].timeSpecific in TimeWindows {
        assert ps[i] == pages[i];
      }
    }
    assert TimeRank(rec.timeSpecific) <= TimeRank(kept) && TimeRank(page.timeSpecific) <= TimeRank(kept) by {
      assert ps[|pages|] == page;
      MergeTimeSpecificIsMax(rec.timeSpecific, page.timeSpecific);
    }
    var j :| 0 <= j < |pages| && pages[j].timeSpecific == rec.timeSpecific;
    assert ps[j] == pages[j];
    assert ps[|pages|] == page;
    if kept == rec.timeSpecific {
      assert ps[j].timeSpecific == kept;
    } else {
      MergeTimeSpecificIsMax(rec.timeSpecific, page.timeSpecific);
      assert ps[|pages|].timeSpecific == kept;
    }
    forall i | 0 <= i < |ps| ensures TimeRank(ps[i].timeSpecific) <= TimeRank(kept) {
      if i < |pages| {
        assert ps[i] == pages[i];
      }
    }
  }

  lemma ProsAfterAdd(g: Group, page: Shipment)
    requires g.pages != [] && g.originalPro == Join(Pros(g.pages), " + ")
    ensures AddPage(g, page).originalPro == Join(Pros(g.pages + [page]), " + ")
  {
    var parts := Pros(g.pages + [page]);
    assert parts[..|parts| - 1] == Pros(g.pages);
  }

  /** Merging a page into a group that summarises its pages summarises one page more. */
  lemma AddPageSummarizes(g: Group, page: Shipment)
    requires Summarizes(g)
    ensures Summarizes(AddPage(g, page))
    ensures AddPage(g, page).pages == g.pages + [page]
  {
    var ps := g.pages + [page];
    assert ps[0] == g.pages[0];
    TotalsAfterAdd(g.rec, g.pages, page);
    RequestsAfterAdd(g.rec, g.pages, page);
    FlagsAfterAdd(g.rec, g.pages, page);
    LengthAfterAdd(g.rec, g.pages, page);
    TimeAfterAdd(g.rec, g.pages, page);
    ProsAfterAdd(g, page);
  }

  lemma StartGroupSummarizes(page: Shipment)
    ensures Summarizes(StartGroup(page))
  {
    var ps := [page];
    assert ps[..0] == [];
    forall q ensures Requested(page, q) == if AnyYes(ps, q) then "Yes" else Requested(ps[0], q) {
      if AnyYes(ps, q) {
        assert ps[0] == page;
      }
    }
  }

  lemma SummarizesEqual(a: Group, b: Group)
    requires a == b && Summarizes(a)
    ensures Summarizes(b) && b.pages == a.pages
  {
  }

  /** The fold over the pages of one address summarises exactly those pages. */
  lemma {:induction false} GroupOfSummarizes(pages: seq<Shipment>)
    requires pages != []
    ensures GroupOf(pages).pages == pages
    ensures Summarizes(GroupOf(pages))
    decreases |pages|
  {
    if |pages| == 1 {
      StartGroupSummarizes(pages[0]);
    } else {
      var init := pages[..|pages| - 1];
      var last := pages[|pages| - 1];
      var g := GroupOf(init);
      assert init + [last] == pages;
      assert Summarizes(AddPage(g, last)) && AddPage(g, last).pages == pages by {
        GroupOfSummarizes(init);
        AddPageSummarizes(g, last);
      }
      SummarizesEqual(AddPage(g, last), GroupOf(pages));
    }
  }

  // ---------------------------------------------------------------------------------------
  // Grouping pages by address.

  /** The grouping key: the normalised delivery address; "" means the page is not grouped. */
  function KeyOf(page: Shipment): string {
    Normalize(page.deliveryAddress)
  }

  /** The group of one address is the generic fold with `StartGroup` and `AddPage`. */
  lemma {:induction false} GroupOfIsFold(pages: seq<Shipment>)
    requires pages != []
    ensures GroupOf(pages) == Fold(StartGroup, AddPage, pages)
    decreases |pages|
  {
    if |pages| > 1 {
      GroupOfIsFold(pages[..|pages| - 1]);
    }
  }

  /** One row of the consolidated table: the joined PROs, the first page's driver, the zone
      with "?" for a missing one, the merged record and its charges. */
  datatype Row = Row(pro: string, driver: string, zone: string, merged: Shipment, charges: Charges)

  /** The row of one group. The charges are computed from the merged record's own zone, not
      from the "?" shown for a missing one. */
  function RowOf(g: Group, fuelSurchargePercent: real): Row {
    Row(g.originalPro, g.rec.driver, if g.rec.zone == "" then "?" else g.rec.zone, g.rec,
        PriceGroup(g.rec, fuelSurchargePercent))
  }

  /** The buckets the consolidator builds from the extracted pages. The grouping key is a
      parameter of this and of what follows; the consolidator's own key is `KeyOf`. */
  function Buckets(keyOf: Shipment -> string, pages: seq<Shipment>): seq<Bucket<Group>> {
    GroupPages(keyOf, StartGroup, AddPage, pages)
  }

  /** `consolidateMultiPageBOLs`: group the pages by normalised delivery address and price each
      group, one row per group in the order its first page arrived. */
  function Consolidate(keyOf: Shipment -> string, pages: seq<Shipment>, fuelSurchargePercent: real): (rows: seq<Row>)
    ensures |rows| == |Buckets(keyOf, pages)|
    ensures forall i :: 0 <= i < |rows| ==> rows[i] == RowOf(Buckets(keyOf, pages)[i].group, fuelSurchargePercent)
  {
    var buckets := Buckets(keyOf, pages);
    seq(|buckets|, i requires 0 <= i < |buckets| => RowOf(buckets[i].group, fuelSurchargePercent))
  }

  /** The grouping keys are exactly the non-empty keys some page carries. */
  ghost predicate KeysAreAddresses(keyOf: Shipment -> string, pages: seq<Shipment>) {
    forall k :: k in Keys(keyOf, pages) <==> k != "" && PagesWithKey(keyOf, pages, k) != []
  }

  /** Every key has a row whose record merges exactly the pages with that key. */
  ghost predicate EveryKeyMerged(keyOf: Shipment -> string, pages: seq<Shipment>, rows: seq<Row>, fuelSurchargePercent: real) {
    forall k :: k in Keys(keyOf, pages) ==>
      && PagesWithKey(keyOf, pages, k) != []
      && RowOf(GroupOf(PagesWithKey(keyOf, pages, k)), fuelSurchargePercent) in rows
  }

  /** Every page with an empty key has a row of its own. */
  ghost predicate EveryUnkeyedAlone(keyOf: Shipment -> string, pages: seq<Shipment>, rows: seq<Row>, fuelSurchargePercent: real) {
    forall p :: p in PagesWithKey(keyOf, pages, "") ==> RowOf(StartGroup(p), fuelSurchargePercent) in rows
  }

  /** A row is the merged row of a key or the row of one unkeyed page. */
  ghost predicate RowAccounted(keyOf: Shipment -> string, pages: seq<Shipment>, row: Row, fuelSurchargePercent: real) {
    || (exists k :: k in Keys(keyOf, pages) && PagesWithKey(keyOf, pages, k) != [] &&
          row == RowOf(GroupOf(PagesWithKey(keyOf, pages, k)), fuelSurchargePercent))
    || (exists p :: p in PagesWithKey(keyOf, pages, "") && row == RowOf(StartGroup(p), fuelSurchargePercent))
  }

  /** Every row is accounted for. */
  ghost predicate EveryRowAccounted(keyOf: Shipment -> string, pages: seq<Shipment>, rows: seq<Row>, fuelSurchargePercent: real) {
    forall row :: row in rows ==> RowAccounted(keyOf, pages, row, fuelSurchargePercent)
  }

  /** What the consolidated table holds: one row per distinct non-empty address key, whose
      record merges exactly the pages with that key, and one row of its own for every page whose
      key is empty; and nothing else. Multiplicity comes from the buckets: `Consolidate` prices
      bucket i in row i, and no key has two buckets. */
  lemma ConsolidateSpec(keyOf: Shipment -> string, pages: seq<Shipment>, fuelSurchargePercent: real)
    ensures KeysAreAddresses(keyOf, pages)
    ensures |Consolidate(keyOf, pages, fuelSurchargePercent)|
            == |Keys(keyOf, pages)| + |PagesWithKey(keyOf, pages, "")|
    ensures EveryKeyMerged(keyOf, pages, Consolidate(keyOf, pages, fuelSurchargePercent), fuelSurchargePercent)
    ensures EveryUnkeyedAlone(keyOf, pages, Consolidate(keyOf, pages, fuelSurchargePercent), fuelSurchargePercent)
    ensures EveryRowAccounted(keyOf, pages, Consolidate(keyOf, pages, fuelSurchargePercent), fuelSurchargePercent)
    // Row i prices bucket i, and the buckets are grouped exactly: one per key, one per unkeyed page.
    ensures GroupedBy(keyOf, StartGroup, AddPage, Buckets(keyOf, pages), pages)
  {
    GroupPagesGrouped(keyOf, StartGroup, AddPage, pages);
    RowCount(keyOf, pages, fuelSurchargePercent);
    EveryKeyHasRow(keyOf, pages, fuelSurchargePercent);
    EveryUnkeyedPageHasRow(keyOf, pages, fuelSurchargePercent);
    EveryRowHasOrigin(keyOf, pages, fuelSurchargePercent);
  }

  lemma EveryKeyHasRow(keyOf: Shipment -> string, pages: seq<Shipment>, fuelSurchargePercent: real)
    ensures EveryKeyMerged(keyOf, pages, Consolidate(keyOf, pages, fuelSurchargePercent), fuelSurchargePercent)
  {
    var rows := Consolidate(keyOf, pages, fuelSurchargePercent);
    forall k | k in Keys(keyOf, pages)
      ensures && PagesWithKey(keyOf, pages, k) != []
              && RowOf(GroupOf(PagesWithKey(keyOf, pages, k)), fuelSurchargePercent) in rows
    {
      var i := KeyRow(keyOf, pages, fuelSurchargePercent, k);
      assert rows[i] == RowOf(GroupOf(PagesWithKey(keyOf, pages, k)), fuelSurchargePercent);
    }
  }

  lemma EveryUnkeyedPageHasRow(keyOf: Shipment -> string, pages: seq<Shipment>, fuelSurchargePercent: real)
    ensures EveryUnkeyedAlone(keyOf, pages, Consolidate(keyOf, pages, fuelSurchargePercent), fuelSurchargePercent)
  {
    var rows := Consolidate(keyOf, pages, fuelSurchargePercent);
    forall p | p in PagesWithKey(keyOf, pages, "")
      ensures RowOf(StartGroup(p), fuelSurchargePercent) in rows
    {
      var i := UnkeyedRow(keyOf, pages, fuelSurchargePercent, p);
      assert rows[i] == RowOf(StartGroup(p), fuelSurchargePercent);
    }
  }

  lemma EveryRowHasOrigin(keyOf: Shipment -> string, pages: seq<Shipment>, fuelSurchargePercent: real)
    ensures EveryRowAccounted(keyOf, pages, Consolidate(keyOf, pages, fuelSurchargePercent), fuelSurchargePercent)
  {
    var rows := Consolidate(keyOf, pages, fuelSurchargePercent);
    forall row | row in rows
      ensures RowAccounted(keyOf, pages, row, fuelSurchargePercent)
    {
      var i :| 0 <= i < |rows| && rows[i] == row;
      var keyed, k, p := RowOrigin(keyOf, pages, fuelSurchargePercent, i);
    }
  }

  lemma RowCount(keyOf: Shipment -> string, pages: seq<Shipment>, fuelSurchargePercent: real)
    ensures forall k :: k in Keys(keyOf, pages) <==> k != "" && PagesWithKey(keyOf, pages, k) != []
    ensures |Consolidate(keyOf, pages, fuelSurchargePercent)| == |Keys(keyOf, pages)| + |PagesWithKey(keyOf, pages, "")|
  {
    GroupPagesSpec(keyOf, StartGroup, AddPage, pages);
  }

  lemma KeyRow(keyOf: Shipment -> string, pages: seq<Shipment>, fuelSurchargePercent: real, k: string)
      returns (i: nat)
    requires k in Keys(keyOf, pages)
    ensures PagesWithKey(keyOf, pages, k) != []
    ensures i < |Consolidate(keyOf, pages, fuelSurchargePercent)| &&
            Consolidate(keyOf, pages, fuelSurchargePercent)[i]
            == RowOf(GroupOf(PagesWithKey(keyOf, pages, k)), fuelSurchargePercent)
  {
    var buckets := Buckets(keyOf, pages);
    GroupPagesSpec(keyOf, StartGroup, AddPage, pages);
    GroupOfIsFold(PagesWithKey(keyOf, pages, k));
    i :| 0 <= i < |buckets| && buckets[i] == Bucket(Some(k), Fold(StartGroup, AddPage, PagesWithKey(keyOf, pages, k)));
    assert Consolidate(keyOf, pages, fuelSurchargePercent)[i] == RowOf(buckets[i].group, fuelSurchargePercent);
  }

  lemma UnkeyedRow(keyOf: Shipment -> string, pages: seq<Shipment>, fuelSurchargePercent: real, p: Shipment)
      returns (i: nat)
    requires p in PagesWithKey(keyOf, pages, "")
    ensures i < |Consolidate(keyOf, pages, fuelSurchargePercent)| &&
            Consolidate(keyOf, pages, fuelSurchargePercent)[i] == RowOf(StartGroup(p), fuelSurchargePercent)
  {
    var buckets := Buckets(keyOf, pages);
    GroupPagesSpec(keyOf, StartGroup, AddPage, pages);
    i :| 0 <= i < |buckets| && buckets[i] == Bucket(None, StartGroup(p));
    assert Consolidate(keyOf, pages, fuelSurchargePercent)[i] == RowOf(buckets[i].group, fuelSurchargePercent);
  }

  lemma RowOrigin(keyOf: Shipment -> string, pages: seq<Shipment>, fuelSurchargePercent: real, i: int)
      returns (keyed: bool, k: string, p: Shipment)
    requires 0 <= i < |Consolidate(keyOf, pages, fuelSurchargePercent)|
    ensures keyed ==>
              && k in Keys(keyOf, pages) && PagesWithKey(keyOf, pages, k) != []
              && Consolidate(keyOf, pages, fuelSurchargePercent)[i]
                 == RowOf(GroupOf(PagesWithKey(keyOf, pages, k)), fuelSurchargePercent)
    ensures !keyed ==>
              && p in PagesWithKey(keyOf, pages, "")
              && Consolidate(keyOf, pages, fuelSurchargePercent)[i] == RowOf(StartGroup(p), fuelSurchargePercent)
  {
    var b := Buckets(keyOf, pages)[i];
    GroupPagesSpec(keyOf, StartGroup, AddPage, pages);
    keyed := b.key.Some?;
    if keyed {
      k := b.key.value;
      GroupOfIsFold(PagesWithKey(keyOf, pages, k));
      p := PagesWithKey(keyOf, pages, k)[0];
    } else {
      k := "";
      p :| p in PagesWithKey(keyOf, pages, "") && b.group == StartGroup(p);
    }
  }

  /** A lone page makes one row of its own, unmerged, whatever its address. */
  lemma SinglePageRow(keyOf: Shipment -> string, page: Shipment, fuelSurchargePercent: real)
    ensures Consolidate(keyOf, [page], fuelSurchargePercent) == [RowOf(StartGroup(page), fuelSurchargePercent)]
    ensures Consolidate(keyOf, [page], fuelSurchargePercent)[0].pro == page.pro
  {
    var bs := Buckets(keyOf, [page]);
    assert [page][..0] == [];
    assert GroupPages(keyOf, StartGroup, AddPage, []) == [];
    assert bs == Insert(keyOf, StartGroup, AddPage, [], page);
    assert |bs| == 1 && bs[0].group == StartGroup(page);
  }

  /** Two pages for the same address make one multi-page row whose PRO joins both. */
  lemma SameAddressMerged(keyOf: Shipment -> string, a: Shipment, b: Shipment, fuelSurchargePercent: real)
    requires keyOf(a) == keyOf(b) != ""
    ensures Consolidate(keyOf, [a, b], fuelSurchargePercent) == [RowOf(AddPage(StartGroup(a), b), fuelSurchargePercent)]
    ensures Consolidate(keyOf, [a, b], fuelSurchargePercent)[0].pro == a.pro + " + " + b.pro
  {
    var first := Buckets(keyOf, [a]);
    assert [a][..0] == [];
    assert GroupPages(keyOf, StartGroup, AddPage, []) == [];
    assert first == [Bucket(Some(keyOf(a)), StartGroup(a))];
    assert [a, b][..1] == [a];
    var bs := Buckets(keyOf, [a, b]);
    assert bs == Insert(keyOf, StartGroup, AddPage, first, b);
    assert FindKey(first, keyOf(b)) == Some(0);
    assert |bs| == 1 && bs[0].group == AddPage(StartGroup(a), b);
  }

  /** Two pages without an address stay two rows, even though their keys are equal. */
  lemma UnkeyedNeverMerged(keyOf: Shipment -> string, a: Shipment, b: Shipment, fuelSurchargePercent: real)
    requires keyOf(a) == "" && keyOf(b) == ""
    ensures Consolidate(keyOf, [a, b], fuelSurchargePercent)
            == [RowOf(StartGroup(a), fuelSurchargePercent), RowOf(StartGroup(b), fuelSurchargePercent)]
  {
    var first := Buckets(keyOf, [a]);
    assert [a][..0] == [];
    assert GroupPages(keyOf, StartGroup, AddPage, []) == [];
    assert first == [Bucket(None, StartGroup(a))];
    assert [a, b][..1] == [a];
    var bs := Buckets(keyOf, [a, b]);
    assert bs == Insert(keyOf, StartGroup, AddPage, first, b);
    assert |bs| == 2 && bs[0].group == StartGroup(a) && bs[1].group == StartGroup(b);
  }

  /** The `forEach` over the pages and the `map` over the stored groups, as loops. */
  method ConsolidatePages(keyOf: Shipment -> string, pages: seq<Shipment>, fuelSurchargePercent: real) returns (rows: seq<Row>)
    ensures rows == Consolidate(keyOf, pages, fuelSurchargePercent)
    ensures |rows| == |Keys(keyOf, pages)| + |PagesWithKey(keyOf, pages, "")|
  {
    var buckets: seq<Bucket<Group>> := [];
    for i := 0 to |pages|
      invariant buckets == Buckets(keyOf, pages[..i])
    {
      assert pages[..i + 1][..i] == pages[..i];
      buckets := Insert(keyOf, StartGroup, AddPage, buckets, pages[i]);
    }
    assert pages[..|pages|] == pages;
    rows := MapGroups(buckets, g => RowOf(g, fuelSurchargePercent));
    RowCount(keyOf, pages, fuelSurchargePercent);
  }

  /** `consolidateMultiPageBOLs` itself: the pages grouped by normalised delivery address. */
  function ConsolidateMultiPage(pages: seq<Shipment>, fuelSurchargePercent: real): seq<Row> {
    Consolidate(KeyOf, pages, fuelSurchargePercent)
  }
}
