/**
 * `fetchLodging`: the shape handling of a parsed reservation page and the
 * per-record normalisation of a raw reservation into a canonical activity or
 * a skip with one warning.
 */
module Lodging {
  import opened Schema

  /** A raw count field (`number_rooms`, `number_guests`) as the two tests of
      the source see it: `Nullish` is `null` or `undefined`; `Falsy` is a present
      falsy value (`0`, `''`, `false`, `NaN`), whose `parseInt` is 0 or NaN and
      never 1; `Truthy` carries what `parseInt(x, 10)` gives for it. */
  datatype RawCount = Nullish | Falsy | Truthy(parsed: ParsedInt)

  /** A raw date field: absent, present without a `getTime` method (text, a
      number, an object), or a Date object. */
  datatype DateField = Missing | NonDate(text: string) | DateObject(at: Instant)

  datatype Address = Address(country: Option<string>, longitude: Option<string>, latitude: Option<string>)

  /** One raw reservation; `address` is `None` when `Address` is falsy. */
  datatype RawRecord = RawRecord(
    id: Option<string>,
    startDateTime: DateField,
    endDateTime: DateField,
    numberRooms: RawCount,
    numberGuests: RawCount,
    address: Option<Address>,
    displayName: Option<string>,
    bookingSiteName: Option<string>)

  /** An element of the reservation list: `null`/`undefined`, or an object. */
  datatype RawItem = NullItem | Obj(record: RawRecord)

  /** The TypeError a record's mapping can throw, in the order it is evaluated. */
  datatype TypeErrorCause = RecordIsNullish | EndDateNotDate | StartDateNotDate

  /** The warnings the mapping logs: a multi-room skip names the record, an
      error skip names the exception. */
  datatype Warning = MultipleRooms(record: RawRecord) | ItemError(cause: TypeErrorCause)

  /** What mapping one record gives: the activity or `None` (the source's
      `null`), and the warnings it logged. */
  datatype Normalized = Normalized(activity: Option<Activity>, warnings: seq<Warning>)

  /** True when the count is a truthy value that parses to exactly one. */
  predicate ParsesToOne(c: RawCount)
  {
    c.Truthy? && c.parsed == Int(1)
  }

  /** The multi-room test: the room count is present (neither null nor
      undefined) and does not parse to exactly one. */
  predicate IsMultiRoom(c: RawCount)
  {
    c != Nullish && !ParsesToOne(c)
  }

  /** The participant count: what the guest count parses to when it is
      truthy, and null when it is absent or falsy. */
  function Participants(c: RawCount): (p: Option<ParsedInt>)
    ensures p.None? <==> !c.Truthy?
  {
    if c.Truthy? then Some(c.parsed) else None
  }

  /** The end date of an activity: null when the stay lasts no time or less,
      the raw end otherwise. An invalid date on either side makes the
      comparison false, so the end date is kept. */
  function EndDatetime(start: Instant, end: Instant): (r: Option<Instant>)
    ensures r.None? <==> start.Millis? && end.Millis? && end.ms <= start.ms
    ensures r.Some? ==> r.value == end
  {
    if start.Millis? && end.Millis? && end.ms - start.ms <= 0 then None else Some(end)
  }

  function Skip(w: Warning): (n: Normalized)
  {
    Normalized(None, [w])
  }

  /** The mapping lambda of `fetchLodging`: every thrown TypeError is caught and
      turned into a skip with one warning. */
  function NormalizeRecord(item: RawItem): (n: Normalized)
    ensures |n.warnings| == (if n.activity.None? then 1 else 0)
  {
    match item
    case NullItem => Skip(ItemError(RecordIsNullish))
    case Obj(s) =>
      if IsMultiRoom(s.numberRooms) then Skip(MultipleRooms(s))
      else if !s.endDateTime.DateObject? then Skip(ItemError(EndDateNotDate))
      else if !s.startDateTime.DateObject? then Skip(ItemError(StartDateNotDate))
      else
        var start, end := s.startDateTime.at, s.endDateTime.at;
        var lon := if s.address.Some? then Some(ParsedFloat(s.address.value.longitude)) else None;
        var lat := if s.address.Some? then Some(ParsedFloat(s.address.value.latitude)) else None;
        var country := if s.address.Some? then s.address.value.country else None;
        Normalized(Some(Activity(
          id := s.id,
          activityType := Purchase,
          lineItems := [HOTEL_STAY],
          countryCodeISO2 := country,
          locationLon := lon,
          locationLat := lat,
          locationLabel := s.displayName,
          labelText := s.displayName,
          carrier := s.bookingSiteName,
          datetime := start,
          endDatetime := EndDatetime(start, end),
          participants := Participants(s.numberGuests))), [])
  }

  /** A record is emitted exactly when it is an object, is not a multi-room
      booking, and both of its date fields are Date objects. */
  lemma EmittedExactlyWhen(item: RawItem)
    ensures NormalizeRecord(item).activity.Some? <==>
      && item.Obj?
      && !IsMultiRoom(item.record.numberRooms)
      && item.record.startDateTime.DateObject?
      && item.record.endDateTime.DateObject?
  {
  }

  /** A present room count that does not parse to exactly 1 (NaN included)
      skips the record with the one multi-room warning; an absent count never
      causes that warning. */
  lemma MultiRoomSkip(s: RawRecord)
    ensures IsMultiRoom(s.numberRooms) ==>
      NormalizeRecord(Obj(s)) == Normalized(None, [MultipleRooms(s)])
    ensures s.numberRooms == Nullish ==>
      forall w :: w in NormalizeRecord(Obj(s)).warnings ==> !w.MultipleRooms?
  {
  }

  /** A record without an address is still emitted, with no coordinates and no
      country; with an address, the country is copied and the coordinates are
      parsed from it. */
  lemma AddressFields(s: RawRecord)
    requires !IsMultiRoom(s.numberRooms) && s.startDateTime.DateObject? && s.endDateTime.DateObject?
    ensures NormalizeRecord(Obj(s)).activity.Some?
    ensures var a := NormalizeRecord(Obj(s)).activity.value;
      if s.address.None? then
        a.locationLon.None? && a.locationLat.None? && a.countryCodeISO2.None?
      else
        && a.countryCodeISO2 == s.address.value.country
        && a.locationLon == Some(ParsedFloat(s.address.value.longitude))
        && a.locationLat == Some(ParsedFloat(s.address.value.latitude))
  {
  }

  /** `datetime` is the raw start; `endDatetime` is `null` exactly when both
      instants are valid and the end is not after the start, and otherwise it
      is the raw end. */
  lemma EndDateRule(s: RawRecord)
    requires NormalizeRecord(Obj(s)).activity.Some?
    ensures var a := NormalizeRecord(Obj(s)).activity.value;
      var start, end := s.startDateTime.at, s.endDateTime.at;
      && a.datetime == start
      && (a.endDatetime.None? <==> start.Millis? && end.Millis? && end.ms <= start.ms)
      && (a.endDatetime.Some? ==> a.endDatetime.value == end)
  {
  }

  /** `participants` is `null` for an absent or falsy guest count (0 included)
      and otherwise is what `parseInt` reads from it. */
  lemma ParticipantsRule(s: RawRecord)
    requires NormalizeRecord(Obj(s)).activity.Some?
    ensures var a := NormalizeRecord(Obj(s)).activity.value;
      && (s.numberGuests == Nullish || s.numberGuests == Falsy ==> a.participants.None?)
      && (s.numberGuests.Truthy? ==> a.participants == Some(s.numberGuests.parsed))
  {
  }

  /** Every emitted activity is a purchase of one hotel stay that carries the
      record's id, name and booking site. */
  lemma FixedFields(item: RawItem)
    requires NormalizeRecord(item).activity.Some?
    ensures var a := NormalizeRecord(item).activity.value;
      && a.activityType == Purchase
      && a.lineItems == [LineItem(EntertainmentHotel, Item, 1)]
      && a.id == item.record.id
      && a.labelText == item.record.displayName
      && a.locationLabel == item.record.displayName
      && a.carrier == item.record.bookingSiteName
  {
  }

  /** A record that is not multi-room but lacks a Date object for its start or
      end is skipped with one error warning, never partially emitted; so is a
      `null` list element. */
  lemma MissingDateSkips(item: RawItem)
    requires item.NullItem? ||
      (!IsMultiRoom(item.record.numberRooms) &&
       (!item.record.startDateTime.DateObject? || !item.record.endDateTime.DateObject?))
    ensures NormalizeRecord(item).activity.None?
    ensures |NormalizeRecord(item).warnings| == 1 && NormalizeRecord(item).warnings[0].ItemError?
  {
  }

  /** A one-room stay that starts and ends at the same instant: emitted with
      no end date, two participants and the address's country and coordinates. */
  lemma CabinExample(t0: int)
    ensures var s := RawRecord(Some("r1"), DateObject(Millis(t0)), DateObject(Millis(t0)),
                               Truthy(Int(1)), Truthy(Int(2)),
                               Some(Address(Some("US"), Some("2.0"), Some("1.0"))),
                               Some("Cabin"), None);
      NormalizeRecord(Obj(s)) == Normalized(Some(Activity(
        Some("r1"), Purchase, [LineItem(EntertainmentHotel, Item, 1)], Some("US"),
        Some(ParsedFloat(Some("2.0"))), Some(ParsedFloat(Some("1.0"))),
        Some("Cabin"), Some("Cabin"), None, Millis(t0), None, Some(Int(2)))), [])
  {
  }

  /** A three-room booking is skipped with one multi-room warning. */
  lemma ThreeRoomsExample(s: RawRecord)
    requires s.numberRooms == Truthy(Int(3))
    ensures NormalizeRecord(Obj(s)) == Normalized(None, [MultipleRooms(s)])
  {
  }

  // ---------------------------------------------------------------------------
  // The page

  /** `data.LodgingObject`: falsy, a single object, or an array. */
  datatype LodgingField = Absent | Single(record: RawRecord) | List(items: seq<RawItem>)

  /** The parsed answer to one reservation query. */
  datatype Page = Page(lodging: LodgingField, timestamp: Option<int>)

  /** What `fetchLodging` returns, with the warnings it logged. */
  datatype FetchResult = FetchResult(activities: seq<Option<Activity>>, warnings: seq<Warning>, modifiedSince: Option<int>)

  datatype Batch = Batch(activities: seq<Option<Activity>>, warnings: seq<Warning>)

  /** The number of skips (`null` entries) in a mapped list. */
  function SkipCount(xs: seq<Option<Activity>>): (k: nat)
  {
    if xs == [] then 0 else (if xs[0].None? then 1 else 0) + SkipCount(xs[1..])
  }

  /** The records of a present `LodgingObject`; a single object becomes a
      one-element list. */
  function Records(f: LodgingField): (items: seq<RawItem>)
  {
    match f
    case Absent => []
    case Single(r) => [Obj(r)]
    case List(items) => items
  }

  /** Maps every record of the list; the batch holds one result per record,
      in list order, and the warnings of all the skips. */
  function NormalizeAll(items: seq<RawItem>): (b: Batch)
    ensures |b.activities| == |items|
    ensures forall i :: 0 <= i < |items| ==> b.activities[i] == NormalizeRecord(items[i]).activity
    ensures |b.warnings| == SkipCount(b.activities)
  {
    if items == [] then Batch([], [])
    else
      var head := NormalizeRecord(items[0]);
      var tail := NormalizeAll(items[1..]);
      Batch([head.activity] + tail.activities, head.warnings + tail.warnings)
  }

  /** `fetchLodging` after the vendor call: an absent `LodgingObject` gives the
      empty batch, anything else is mapped record by record. */
  function FetchLodging(page: Page): (r: FetchResult)
    ensures r.modifiedSince == page.timestamp
  {
    if page.lodging.Absent? then FetchResult([], [], page.timestamp)
    else
      var b := NormalizeAll(Records(page.lodging));
      FetchResult(b.activities, b.warnings, page.timestamp)
  }

  /** A missing `LodgingObject` gives no activities, no warnings and the page's timestamp. */
  lemma AbsentLodgingIsEmpty(ts: Option<int>)
    ensures FetchLodging(Page(Absent, ts)) == FetchResult([], [], ts)
  {
  }

  /** A single object is processed exactly as the one-element list holding it. */
  lemma SingleIsSingletonList(r: RawRecord, ts: Option<int>)
    ensures FetchLodging(Page(Single(r), ts)) == FetchLodging(Page(List([Obj(r)]), ts))
    ensures |FetchLodging(Page(Single(r), ts)).activities| == 1
  {
  }

  /** For a list, the mapped activities have the records' length and order,
      and there is exactly one warning per skip. */
  lemma FetchKeepsOrder(items: seq<RawItem>, ts: Option<int>)
    ensures var r := FetchLodging(Page(List(items), ts));
      && |r.activities| == |items|
      && (forall i :: 0 <= i < |items| ==> r.activities[i] == NormalizeRecord(items[i]).activity)
      && |r.warnings| == SkipCount(r.activities)
  {
  }

  // ---------------------------------------------------------------------------
  // Date fields of a parsed page

  /** `JSON.parse` yields text, numbers, booleans, `null`, arrays and plain
      objects, never a Date: an item of a parsed page has no Date object. */
  predicate FromJson(item: RawItem)
  {
    item.Obj? ==> !item.record.startDateTime.DateObject? && !item.record.endDateTime.DateObject?
  }

  predicate PageFromJson(page: Page)
  {
    forall item :: item in Records(page.lodging) ==> FromJson(item)
  }

  /** As written, no record of a parsed page is ever emitted: the room check
      skips it, or `endDate.getTime()` throws. */
  lemma JsonRecordIsSkipped(item: RawItem)
    requires FromJson(item)
    ensures NormalizeRecord(item).activity.None?
    ensures |NormalizeRecord(item).warnings| == 1
  {
  }

  /** As written, a parsed page yields only skips. */
  lemma JsonPageEmitsNothing(page: Page)
    requires PageFromJson(page)
    ensures forall x :: x in FetchLodging(page).activities ==> x.None?
  {
    var r := FetchLodging(page);
    forall x | x in r.activities
      ensures x.None?
    {
      var i :| 0 <= i < |r.activities| && r.activities[i] == x;
      JsonRecordIsSkipped(Records(page.lodging)[i]);
    }
  }

  /** The intended conversion of a date text into a Date object before use
      (`new Date(text)` or the like, given as `parseDate`); Date objects and
      absent fields are left alone. */
  function ReviveDate(d: DateField, parseDate: string -> Instant): (e: DateField)
    ensures !e.NonDate?
    ensures e.Missing? <==> d.Missing?
    ensures d.DateObject? ==> e == d
  {
    if d.NonDate? then DateObject(parseDate(d.text)) else d
  }

  function ReviveItem(item: RawItem, parseDate: string -> Instant): (revived: RawItem)
  {
    match item
    case NullItem => NullItem
    case Obj(s) => Obj(s.(startDateTime := ReviveDate(s.startDateTime, parseDate),
                          endDateTime := ReviveDate(s.endDateTime, parseDate)))
  }

  function ReviveField(f: LodgingField, parseDate: string -> Instant): (revived: LodgingField)
  {
    match f
    case Absent => Absent
    case Single(r) => Single(ReviveItem(Obj(r), parseDate).record)
    case List(items) => List(seq(|items|, i requires 0 <= i < |items| => ReviveItem(items[i], parseDate)))
  }

  /** The record mapping with dates converted first: a record is emitted
      exactly when it is an object, is not multi-room and has both dates. */
  function NormalizeRevived(item: RawItem, parseDate: string -> Instant): (n: Normalized)
    ensures n.activity.Some? <==>
      && item.Obj?
      && !IsMultiRoom(item.record.numberRooms)
      && item.record.startDateTime != Missing
      && item.record.endDateTime != Missing
    ensures n.activity.Some? ==>
      n.activity.value.datetime ==
        (if item.record.startDateTime.NonDate? then parseDate(item.record.startDateTime.text)
         else item.record.startDateTime.at)
    ensures |n.warnings| == (if n.activity.None? then 1 else 0)
  {
    NormalizeRecord(ReviveItem(item, parseDate))
  }

  /** `fetchLodging` with dates converted first. */
  function FetchLodgingRevived(page: Page, parseDate: string -> Instant): (r: FetchResult)
    ensures r.modifiedSince == page.timestamp
    ensures !page.lodging.Absent? ==>
      && |r.activities| == |Records(page.lodging)|
      && forall i :: 0 <= i < |r.activities| ==>
           r.activities[i] == NormalizeRevived(Records(page.lodging)[i], parseDate).activity
  {
    FetchLodging(Page(ReviveField(page.lodging, parseDate), page.timestamp))
  }

  /** The corrected fetch behaves as written on any page whose dates are
      already Date objects (or absent). */
  lemma ReviveKeepsDateObjects(page: Page, parseDate: string -> Instant)
    requires forall item :: item in Records(page.lodging) && item.Obj? ==>
      !item.record.startDateTime.NonDate? && !item.record.endDateTime.NonDate?
    ensures FetchLodgingRevived(page, parseDate) == FetchLodging(page)
  {
    match page.lodging
    case Absent =>
    case Single(r) =>
      assert Obj(r) in Records(page.lodging);
    case List(items) =>
      var revived := seq(|items|, i requires 0 <= i < |items| => ReviveItem(items[i], parseDate));
      forall i | 0 <= i < |items|
        ensures revived[i] == items[i]
      {
        assert items[i] in Records(page.lodging);
      }
      assert revived == items;
  }
}
