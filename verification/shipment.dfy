/** The record the calculators and the consolidator read: one extracted BOL page, or one
    consolidated shipment. A field the extraction left out is "" (strings), 0 (numbers) or
    false (flags). The source's guards treat `undefined` and those values alike, except the
    join of the PROs of a merged shipment, where a missing PRO is written "undefined". */
module Shipments {

  datatype Shipment = Shipment(
    pro: string,
    driver: string,
    zone: string,
    deliveryAddress: string,
    weight: real,
    volumeFt3: real,
    /** `volume`, read by the per-page calculator only when `volumeFt3` is 0 or missing. */
    volume: real,
    palletCount: real,
    /** Detention in minutes. */
    detention: real,
    /** "Yes" or "" in a well-formed extraction; any other string is carried along. */
    liftgate: string,
    inside: string,
    residential: string,
    /** One of OverLengthRanges or "". */
    overLength: string,
    /** One of TimeWindows or "". */
    timeSpecific: string,
    hasDebrisSection: bool,
    isLakeshore: bool)

  /** The over-length categories, least to most severe (the `ranges` array of the consolidator). */
  const OverLengthRanges: seq<string> := ["97-144", "145-192", "193-240", "241 or more"]

  /** The time-specific categories, least to most restrictive as the consolidator ranks them. */
  const TimeWindows: seq<string> := ["2 Hours", "AM Special", "15 Minutes"]
}
