# BOL freight pricing and consolidation, in Dafny

A model of the pricing and consolidation engine of the BOL extractor. The engine has three
parts, and each is modelled as it is written in the source:

- **Zone resolution and lane tagging** (backend `processPage`). This covers:
  - the fixed-price lane table, looked up by the upper-cased `PICKUP-DELIVERY` state pair;
  - keeping a valid zone read from the BOL;
  - the ZIP fallback through `ZIP_TO_ZONE`;
  - the `QUOTE`/`UNKNOWN` sentinel;
  - the Lakeshore flag;
  - the page loop that records one result per page, whether it succeeded or failed.
- **The per-shipment charge calculator, in its two revisions.**
  - The front end's `calculateCharges` (module `FrontendCharges`) charges "AM Special" at 23/33 and bills detention per started hour. On an unknown zone it charges no accessorials, and it reports `extras` as the sum of the accessorials.
  - The consolidator's `calculate*` helpers and group pricing (module `GroupCharges`) charge "AM Special" at 28/38 and bill detention pro rata. Accessorials are computed even when freight needs a quote. The row then shows a "Quote Required" total, and of the accessorials only the debris removal. `extras` is always 0.
  - What the two revisions share lives in `Rates`: dimensional weight, the weight tier, the freight clamp, the fuel surcharge and the flat charges.
  - "Quote Required" is the constructor `QuoteRequired` of `Money = Priced(real) | QuoteRequired`.
- **The address normaliser and the multi-page consolidator** (`normalizeAddress`, `consolidateMultiPageBOLs`).
  - `Address` models each `.replace(/\bX\b/g, Y)` literally, as a left-to-right scan that honours the `\b` boundaries.
  - That scan is proved equal to rewriting every maximal word on its own. Shape and idempotence are proved on that word-wise form.
  - `Grouping` is the grouping loop, generic in the page type, the group type and the key.
  - `Consolidation` holds the merge of one page into a group, what a merged group holds in terms of its pages, and the pricing of each group.

Money and weights are `real`, so the model proves exact arithmetic. Static tables (the rate table, the valid zones, the fixed lanes, the time-specific table and the 891-entry ZIP table) are constants in `Tables` and `ZipTable`. Every ZIP key of the source is five decimal digits starting with '3'. The ZIP table is therefore keyed by the number its key spells, split by the first three digits. `Text.DigitsValueInjective` shows that this is the same lookup as one by string.

Files:

| file | contents |
|---|---|
| `wrappers.dfy` | `Option`, `Result` |
| `text.dfy` | ASCII case mapping, `includes`, digit stripping, `join` |
| `shipment.dfy` | the extracted page / merged shipment record |
| `tables.dfy`, `zip_table.dfy` | static business data |
| `rates.dfy` | pricing vocabulary shared by both revisions |
| `frontend_charges.dfy` | `calculateCharges` of the front end |
| `group_charges.dfy` | the consolidator's pricing helpers, and how the two revisions relate |
| `address.dfy`, `address_examples.dfy` | `normalizeAddress` |
| `grouping.dfy` | the generic grouping loop |
| `consolidation.dfy` | `consolidateMultiPageBOLs` |
| `lane_tagging.dfy` | zone resolution, lane tagging and the page loop |

## Model

| member | source | states |
|---|---|---|
| Tables.PriceTableCoversValidZones | bol-extractor-backend/server.js:163 | The rate table's keys are exactly VALID_ZONES, so a zone the backend keeps or derives is one the calculators can price |
| Tables.ZoneRatesWellFormed | bol-extractor-frontend/src/App.js:3-16 | Every rate row has 0 < min <= max, and heavier tiers never cost more per pound |
| Tables.TimeSpecificEarlyDiscount | bol-extractor-frontend/src/App.js:18-22 | In every time-specific category, zones A-D cost exactly $10 less than zones E-L |
| Tables.ZoneOfZipKey | bol-extractor-backend/server.js:32-161 | A ZIP key is found in ZIP_TO_ZONE only if it is five digits, and every zone it maps to is a letter A-L |
| Tables.ZipZoneIsPriceable | bol-extractor-backend/server.js:32-163 | Every value of ZIP_TO_ZONE is in VALID_ZONES and is a key of the rate table |
| Text.DigitsValueInjective | bol-extractor-backend/server.js:32-161 | Equal-length digit strings that spell the same number are equal, so looking ZIP keys up by number is looking them up by string |
| Rates.RatesFor | bol-extractor-frontend/src/App.js:586-589 | A rate row is found exactly when the upper-cased zone is one of A-L; the row has min <= max |
| Rates.TierFor | bol-extractor-frontend/src/App.js:619-623 | Tiers follow descending thresholds: >= 10000, [5000, 10000), [2000, 5000), and everything below 2000 (including below 1000) takes 1000+ |
| Rates.TierBoundary | bol-extractor-frontend/src/App.js:619-623 | 1999.99 lb takes the 1000+ rate and 2000 lb the 2000+ rate |
| Rates.ApplicableWeight | bol-extractor-frontend/src/App.js:615-616 | The billed weight is at least the actual weight and at least the dimensional weight, and equals one of them |
| Rates.ClampOrdersAgree | bol-extractor/src/App.js:49-51 | With min <= max, `max(lo, min(x, hi))` and `min(max(x, lo), hi)` agree; the result lies in [lo, hi], an in-range value is unchanged and an out-of-range one goes to the nearer bound |
| Rates.FuelSurcharge | bol-extractor/src/App.js:55-58 | The fuel surcharge is "Quote Required" exactly when freight is, and otherwise freight times the surcharge fraction |
| Rates.DebrisCharge | bol-extractor/src/App.js:101-107 | $3 per pallet when the BOL has a debris section or the client is Lakeshore; 0 otherwise |
| Rates.LiftgateCharge | bol-extractor-frontend/src/App.js:637 | 20 exactly when liftgate is "Yes", 0 exactly when it is not |
| Rates.ResidentialCharge | bol-extractor-frontend/src/App.js:652 | 15 exactly when residential is "Yes", 0 exactly when it is not |
| Rates.OverLengthCharge | bol-extractor-frontend/src/App.js:645-649 | The i-th over-length range costs 12 + 6i (12/18/24/30); any other value costs 0 |
| Rates.OverLengthChargeIncreasing | bol-extractor-frontend/src/App.js:645-649 | The over-length charge is positive and strictly increases with the severity of the range |
| FrontendCharges.Ceil | bol-extractor-frontend/src/App.js:667 | `Math.ceil`: the least integer not below x |
| FrontendCharges.DetentionCharge | bol-extractor-frontend/src/App.js:666-668 | Nothing up to 30 minutes; beyond that, $36 times the number of started hours over 30 minutes, at least one hour, always a multiple of 36 |
| FrontendCharges.DetentionExamples | bol-extractor-frontend/src/App.js:666-668 | 30 minutes cost 0, 31 and 90 cost 36, 91 cost 72 |
| FrontendCharges.TimeSpecificMatchesTable | bol-extractor-frontend/src/App.js:654-663 | The inline time-specific prices equal the TIME_SPECIFIC_CHARGES cell of the zone's column; an unrecognised category costs 0 |
| FrontendCharges.InsideCharge | bol-extractor-frontend/src/App.js:640-642 | Inside delivery requested with "Yes" costs 0.004 $/lb, raised to $10 below 2500 lb and capped at $80 above 20000 lb; otherwise 0 |
| FrontendCharges.PageAccessorials | bol-extractor-frontend/src/App.js:632-668 | Each of the seven accessorials of a priced page is its own charge rule, at the billed weight and the upper-cased zone |
| FrontendCharges.PricedCharges | bol-extractor-frontend/src/App.js:614-675 | Freight is tier rate times billed weight, raised to the zone minimum when below it and capped at the zone maximum when above it; fuel = freight times the fraction; extras = sum of the seven accessorials; total = freight + fuel + extras |
| FrontendCharges.CalculateCharges | bol-extractor-frontend/src/App.js:582-698 | Freight, fuel and total are "Quote Required" exactly when the upper-cased zone has no rate row, and then every accessorial, extras and chargeable weight are 0; otherwise the priced branch |
| GroupCharges.CalculateFreight | bol-extractor/src/App.js:35-52 | "Quote Required" exactly for a zone that does not upper-case to A-L; otherwise tier rate times weight, raised to the zone minimum when below it and capped at the zone maximum when above it |
| GroupCharges.InsideCharge | bol-extractor/src/App.js:61-65 | Any non-empty request costs 0.004 $/lb, raised to $10 below 2500 lb and capped at $80 above 20000 lb; an empty one costs 0 |
| GroupCharges.DetentionCharge | bol-extractor/src/App.js:94-98 | Nothing up to 30 minutes; beyond that, positive and exactly $36 per hour over 30 minutes, pro rata |
| GroupCharges.GroupAccessorials | bol-extractor/src/App.js:266-277 | Each of the seven accessorials of a group is its own charge rule, at the billed weight and the group's zone |
| GroupCharges.PriceGroup | bol-extractor/src/App.js:259-303 | Billed weight = max(weight, dimensional weight); freight by `calculateFreight`; fuel and total propagate "Quote Required"; the accessorials are computed either way; extras is 0 and a priced total is freight + fuel + the accessorials |
| GroupCharges.DetentionRevisionsCompared | bol-extractor/src/App.js:94-98 | The pro-rata detention never exceeds the per-started-hour one and is less than $36 below it; the two are equal exactly when the billable time is a whole number of hours |
| GroupCharges.TimeSpecificRevisionsCompared | bol-extractor/src/App.js:81-91 | The two revisions price every time window alike except "AM Special", which costs $5 more here (28/38 against 23/33) |
| GroupCharges.InsideRevisionsAgree | bol-extractor/src/App.js:61-65 | On "Yes" or "", the two inside-delivery charges agree, although their clamps are written in opposite orders |
| GroupCharges.QuotePathsDiffer | bol-extractor/src/App.js:263-301 | On an unknown zone the front end reports no accessorials. Group pricing still computes them under a "Quote Required" total, so its row shows a debris removal of $3 a pallet whenever debris is flagged |
| Address.StripChar | bol-extractor/src/App.js:119-120 | The result holds every character of the input except the stripped one, each as often as in the input, and nothing else |
| Address.StripCharAppend | bol-extractor/src/App.js:119-120 | Stripping a concatenation strips each part, so the kept characters stay in their input order |
| Address.ReplaceAllIsMapWords | bol-extractor/src/App.js:121-154 | The chain of `\b`-bounded whole-word replacements equals one pass that rewrites every maximal word on its own |
| Address.NormalizeIsWordwise | bol-extractor/src/App.js:113-159 | `normalizeAddress` as written equals its word-wise reading on every input |
| Address.RewriteIsLookup | bol-extractor/src/App.js:121-132 | When no replacement is itself a rewritten word, applying the rules in order is a single table lookup |
| Address.LookupIdempotent | bol-extractor/src/App.js:121-132 | Without such chains, a looked-up word is not rewritten again |
| Address.ListsWellFormed | bol-extractor/src/App.js:121-154 | Both rule lists are lower-case words without chains, and every directional is deleted |
| Address.NormalizeShape | bol-extractor/src/App.js:113-159 | Every output has no capitals, '.' or ','; its only white space is single inner spaces; it holds no word the normaliser would expand or delete |
| Address.NormalizeFixesNormalized | bol-extractor/src/App.js:113-159 | The normaliser leaves every string of that shape unchanged |
| Address.NormalizeIdempotent | bol-extractor/src/App.js:113-159 | Normalising twice is normalising once |
| AddressExamples.AbbreviatedExample | bol-extractor/src/App.js:116-156 | "123 Main St NE" becomes "123 main street" |
| AddressExamples.SpelledOutUnchanged | bol-extractor/src/App.js:116-156 | "123 main street" is unchanged |
| AddressExamples.StoneUnchanged | bol-extractor/src/App.js:121-154 | "stone" is unchanged: it contains "st", "ne" and "s", but none as a whole word |
| AddressExamples.NestUnchanged | bol-extractor/src/App.js:121-154 | "nest" is unchanged |
| AddressExamples.ExpansionExample | bol-extractor/src/App.js:121-132 | The expansion pass turns "123 main st ne" into "123 main street ne" |
| AddressExamples.DeletionExample | bol-extractor/src/App.js:139-154 | The directional pass deletes the final "ne" but keeps the space before it, which the final collapse and trim remove |
| AddressExamples.EmptyExample | bol-extractor/src/App.js:114 | A missing address normalises to "" |
| Consolidation.LengthRank | bol-extractor/src/App.js:213-215 | `ranges.indexOf`: the position of a known over-length range, -1 exactly for any other value |
| Consolidation.TimeRank | bol-extractor/src/App.js:233-242 | Ranks "" < "2 Hours" < "AM Special" < "15 Minutes"; any other value gets -1 |
| Consolidation.MergeOverLengthIsMax | bol-extractor/src/App.js:211-219 | On known values, the over-length merge keeps the more severe range |
| Consolidation.MergeTimeSpecificIsMax | bol-extractor/src/App.js:233-242 | On known values, the time-window merge keeps the more restrictive window |
| Consolidation.SeverityMergesCommute | bol-extractor/src/App.js:211-242 | On known values, the kept range and window do not depend on the order pages arrive in |
| Consolidation.SeverityMergesAssociate | bol-extractor/src/App.js:211-242 | On known values, the kept range and window do not depend on how pages are combined |
| Consolidation.AddPageSummarizes | bol-extractor/src/App.js:202-254 | Merging a page into a group that summarises its pages summarises those pages plus the new one |
| Consolidation.GroupOfSummarizes | bol-extractor/src/App.js:192-254 | A group built from its pages summarises them. Weight, volume, pallets and detention are sums; a request is "Yes" if any page has it, else the first page's; the flags are ORs; over-length and time window are the most severe a page names (when known), empty only if every page's is; PRO, driver, zone and address are the first page's; originalPro joins the PROs with " + "; isMultiPage means two or more pages |
| Consolidation.GroupOfIsFold | bol-extractor/src/App.js:192-254 | The group of one address is the generic fold with the first-page and merge steps |
| Consolidation.ConsolidateSpec | bol-extractor/src/App.js:172-303 | Row i prices bucket i, and the buckets are grouped exactly: no two share a key, each keyed bucket merges exactly the pages with its key, and the unkeyed buckets are one single-page group per empty-key page, in page order. Hence one row per distinct non-empty address key and one unmerged row per empty-key page, every row one of these, and the count is distinct keys plus empty-key pages |
| Consolidation.SinglePageRow | bol-extractor/src/App.js:192-201 | A lone page makes one unmerged row with its own PRO |
| Consolidation.SameAddressMerged | bol-extractor/src/App.js:202-254 | Two pages with the same non-empty key make one row whose PRO is "first + second" |
| Consolidation.UnkeyedNeverMerged | bol-extractor/src/App.js:178-190 | Two pages with empty keys make two rows, although their keys are equal |
| Consolidation.ConsolidatePages | bol-extractor/src/App.js:172-303 | The `forEach` and the `map` as loops compute the consolidated table, with as many rows as distinct keys plus empty-key pages |
| Grouping.FindKey | bol-extractor/src/App.js:192 | `grouped[key]`: the position of the bucket stored under the key, or none when no bucket has it |
| Grouping.InsertGrouped | bol-extractor/src/App.js:172-255 | One step of the `forEach` keeps the buckets grouped by key for the pages seen so far plus the new page |
| Grouping.GroupPagesGrouped | bol-extractor/src/App.js:172-256 | After all pages, the buckets are grouped by key: distinct keys, exactly the pages' non-empty keys, each holding the fold of its pages, one single-page bucket per empty-key page |
| Grouping.GroupPagesSpec | bol-extractor/src/App.js:172-256 | The grouping in terms of the pages alone: no two buckets share a key; every non-empty key has a bucket holding the fold of exactly its pages; the unkeyed buckets are one single-page group per empty-key page, in page order; every bucket is one of these; and the count |
| LaneTagging.ZipKey | bol-extractor-backend/server.js:627 | The cleaned ZIP key is all digits and at most five characters |
| LaneTagging.ResolvePage | bol-extractor-backend/server.js:614-644 | Let the key be the upper-cased state pair. A fixed lane exactly when the key is a lane of the table, with the table's price, leaving the zone untouched and no zone source. Otherwise: BOL exactly when the zone upper-cases to A-L, keeping it unchanged; ZIP exactly when that fails and the cleaned ZIP is in the table, taking its letter; UNKNOWN with zone "QUOTE" exactly when both fail. Lakeshore exactly when the lower-cased client name contains "lakeshore" |
| LaneTagging.QuoteZoneNotValid | bol-extractor-backend/server.js:633-637 | The "QUOTE" sentinel is not a valid zone, even upper-cased |
| LaneTagging.TaggedZonePriceable | bol-extractor-backend/server.js:624-641 | Off the fixed lanes, a page's zone has a rate row exactly when its zone source is BOL or ZIP |
| LaneTagging.PageOutcome | bol-extractor-backend/server.js:683-697 | A page's result carries its number; it is a success exactly when the extraction succeeded, and then holds the tagged page; otherwise it holds the error message |
| LaneTagging.ProcessPages | bol-extractor-backend/server.js:671-699 | One result per page, in page order, numbered from 1: a processed result carries its own page's extracted fields and their tagging, a failed page is recorded with its error, and later pages are still processed |
| LaneTagging.GaNjIsFixedLane | bol-extractor-backend/server.js:614-622 | A page from "ga" to "nj" is on lane "GA-NJ" at $2000 and keeps its zone, with no zone source |
| LaneTagging.ZipZoneExamples | bol-extractor-backend/server.js:33-65 | ZIP 30002 and ZIP 30305 are both zone C |
| LaneTagging.ZipKeyOfZipPlusFour | bol-extractor-backend/server.js:627 | A ZIP+4 code "zzzzz-dddd" is looked up by its five-digit ZIP |
| LaneTagging.ZipPlusFourExample | bol-extractor-backend/server.js:627-632 | "30002-1234" resolves to zone C |
| LaneTagging.ZipFallbackExample | bol-extractor-backend/server.js:626-632 | A GA-to-GA page with no BOL zone and ZIP "30002-1234" gets zone "C" from the ZIP |
| LaneTagging.NamedLakeshore | bol-extractor-backend/server.js:644 | A client name containing "Lakeshore" or "LAKESHORE" anywhere is a Lakeshore client |
| LaneTagging.MissingClientNotLakeshore | bol-extractor-backend/server.js:644 | A missing client name is never Lakeshore |

`Consolidation.ConsolidateMultiPage` is `consolidateMultiPageBOLs` itself. It is
`Consolidation.Consolidate` with the grouping key fixed to the normalised delivery address,
`Consolidation.KeyOf`. The properties above are stated for any key function, so they hold for
this one.

## Left out

- The React UI, file handling, CSV/clipboard export, the Express routes, the Anthropic call with its prompt and JSON parsing, and PDF splitting and compression. These are I/O and foreign libraries. A page's extraction is an input: a `Result` holding the extracted fields or the error message.
- The delay between pages (`server.js:22-23`, `678-681`). It is timing only, and the page loop is modelled without it.
- `toFixed` formatting and IEEE floating point. Amounts are exact `real`s, and the rows hold the numbers, not their display strings.
- Display-only row fields: weight, volume and the yes/no strings echoed back, `zoneSource` and `deliveryZip` on the front-end row, the `driver` set by the operator, and `data` returned by the backend. The consolidated row keeps the merged record and its charges.
- JavaScript object quirks of the grouping map:
  - the `Math.random()` key of an address-less page, modelled as a bucket no other page can join;
  - prototype-named keys such as "constructor";
  - the integer-like keys that `Object.values` lists first.
  Groups are kept in the order their first page arrived. The model builds them in that order, but no contract states the order of the rows.
- Case mapping is ASCII only. `toLowerCase`/`toUpperCase` on other characters are not modelled.
- `undefined`, `null` and missing fields are "" for strings, 0 for numbers and false for flags. The guards of the source (`|| ''`, `|| 0`, `?.`, truthiness tests) treat those alike; the one place that does not is the PRO join below.
- Consolidation.AddPageSummarizes: a missing or null PRO is joined as "", so the model's merged PRO reads " + 456" where the template literal of `bol-extractor/src/App.js:250` and `:253` writes "undefined + 456" or "null + 456". PROs are strings in the model, with no separate missing value.
- Consolidation.GroupOfSummarizes: likewise, the joined PRO of a group treats a missing or null PRO as "".
- Consolidation.SameAddressMerged: likewise, the "first + second" PRO it states uses "" for a missing or null PRO, not "undefined" or "null".
- A pricing short-circuit for fixed-price lanes. The backend only tags the page; neither calculator reads `isFixedLane` or `fixedPrice`.
- The input-mapping glue of the consolidating front end (`bol-extractor/src/App.js:390-406`) and the debug logging (`161-170`).
- The backend's page numbering is modelled as the position in the page list plus one, which is how `splitPdfPages` numbers pages.
- GroupCharges.InsideCharge: charges any non-empty `inside` value, not only "Yes", because that is what `calculateInsideDelivery` tests. `GroupCharges.InsideRevisionsAgree` relates the two revisions only on "Yes" and "".
- Consolidation.MergeOverLengthIsMax: the "keeps the maximum" property is proved only for known ranges and "". An unrecognised range is merged as written, which replaces it by any incoming non-empty range; `Consolidation.Summarizes` states only the emptiness half for such pages.
- Consolidation.MergeTimeSpecificIsMax: likewise, proved only for known windows and "". An unrecognised window is merged as written.
