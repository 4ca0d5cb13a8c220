/**
 * The canonical activity a lodging connector emits, and the few JavaScript
 * value shapes the connector's normalisation depends on.
 */
module Schema {

  datatype Option<+T> = None | Some(value: T)

  /** What `getTime()` of a JavaScript Date object gives: integer milliseconds,
      or NaN for an invalid date. */
  datatype Instant = Millis(ms: int) | InvalidDate

  /** What `parseInt(x, 10)` gives: an integer, or NaN when no digits lead the text. */
  datatype ParsedInt = Int(n: int) | NaN

  /** The number `parseFloat` reads from an address coordinate. Floating-point
      parsing is not modelled: the value is identified by the text it came from. */
  datatype Coordinate = ParsedFloat(source: Option<string>)

  /** The tags imported from the project's shared definitions. */
  datatype ActivityType = Purchase
  datatype PurchaseCategory = EntertainmentHotel
  datatype Unit = Item

  datatype LineItem = LineItem(identifier: PurchaseCategory, unit: Unit, value: int)

  /** A canonical purchase activity; `None` stands for the `null` (or `undefined`)
      the connector writes when a field is unavailable. */
  datatype Activity = Activity(
    id: Option<string>,
    activityType: ActivityType,
    lineItems: seq<LineItem>,
    countryCodeISO2: Option<string>,
    locationLon: Option<Coordinate>,
    locationLat: Option<Coordinate>,
    locationLabel: Option<string>,
    labelText: Option<string>,  // the `label` field (`label` is a Dafny keyword)
    carrier: Option<string>,
    datetime: Instant,
    endDatetime: Option<Instant>,
    participants: Option<ParsedInt>)

  /** The single line item of a one-stay purchase. */
  const HOTEL_STAY: LineItem := LineItem(EntertainmentHotel, Item, 1)

  /** `config.version`: the state layout version stamped by every collect. */
  const VERSION: int := 1
}
