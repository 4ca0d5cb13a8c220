# Airbnb lodging connector: normalisation and incremental collect

This project models the core of the Airbnb lodging connector
(`integrations/lodging/airbnb.js`). The connector pulls the account's
reservations since a checkpoint. It maps each raw reservation either to one
canonical purchase activity or to a skip with a logged warning. It then returns
the activities and the next connector state.

Three Dafny modules follow the connector's structure:

- `Schema` (`schema.dfy`) defines the canonical activity, its fixed tags, the
  state layout version (1), and the JavaScript value shapes the mapping relies
  on. `Instant` is what `getTime()` gives, including NaN for an invalid date.
  `ParsedInt` is what `parseInt` gives, including NaN. `Coordinate` stands for
  `parseFloat` of a coordinate and is kept symbolic.
- `Lodging` (`lodging.dfy`) models `fetchLodging` once the vendor call is done.
  It covers the shape of the parsed page (`LodgingObject` may be missing, a
  single object, or a list) and the per-record mapping. In that mapping every
  thrown TypeError becomes a skip with exactly one warning. Raw count fields
  are seen the way the two tests in the source see them. `number_rooms != null`
  separates `null`/`undefined` from everything else. `number_guests ? … : null`
  separates truthy values from falsy ones, so a guest count of `0` means no
  participant count, while the text `"0"` gives 0 participants.
- `Collector` (`collector.dfy`) models `collect`. `ConnectorState` is a class
  whose `Collect` method first defaults `lastModifiedSince` in place, as the
  source does. The default applies when the checkpoint is absent and also
  when it is `0`, because the test is `!state.lastModifiedSince`. Then
  `Collect` issues the query and returns a copy of the state with the new
  checkpoint and the version stamped. The aggregation is written as functions
  (`Flatten`, `Present`, `MaxTimestamp`, `Aggregate`) with lemmas about them.
  `CollectCorrected` is the same collect over the corrected record mapping
  described under "## Findings".

The vendor query is a parameter `query: int -> Page`: the parsed answer for a
checkpoint. "Now" is a parameter `now`. The logger is replaced by the sequence
of warnings it would receive.

In a few places the code is looser than the connector's intended contract.
The model follows the code:

- A sub-query without a timestamp is not excluded from the maximum. The code
  would compute NaN, so the model requires every timestamp to be present.
- The checkpoint is not kept monotonic. It becomes the largest timestamp the
  vendor reports, whatever the previous checkpoint was.
- An activity's `id` is copied through without any check that it is present.
- The room test is `parseInt(number_rooms, 10) !== 1`. So `"1.5"` counts as one
  room, and `0`, `""` or a non-numeric text counts as a multi-room booking.

## Model

| member | source | states |
|---|---|---|
| `Lodging.NormalizeRecord` | integrations/lodging/airbnb.js:41-71 | exactly one warning is logged when the record is skipped, none when it is emitted |
| `Lodging.Participants` | integrations/lodging/airbnb.js:50 | the participant count is null exactly when the raw guest count is not truthy |
| `Lodging.EmittedExactlyWhen` | integrations/lodging/airbnb.js:42-71 | a record is emitted if and only if it is an object, is not a multi-room booking, and has Date objects for both its start and its end |
| `Lodging.MultiRoomSkip` | integrations/lodging/airbnb.js:44-47 | a present room count that does not parse to 1 (NaN included) skips the record with the single multi-room warning naming it; an absent room count never causes that warning (the test is `IsMultiRoom`) |
| `Lodging.AddressFields` | integrations/lodging/airbnb.js:48-59 | without an address the record is still emitted, with null longitude, latitude and country; with one, the country is copied and both coordinates are parsed from its fields |
| `Lodging.EndDateRule` | integrations/lodging/airbnb.js:63-64 | `datetime` is the raw start; `endDatetime` is null exactly when both instants are valid and end minus start is at most 0, and otherwise it is the raw end (an invalid date keeps the end); the rule is computed by `EndDatetime` |
| `Lodging.ParticipantsRule` | integrations/lodging/airbnb.js:50-65 | an absent or falsy guest count (0 included) gives null participants; a truthy one gives what `parseInt` reads from it |
| `Lodging.FixedFields` | integrations/lodging/airbnb.js:51-62 | every emitted activity is a purchase with the single line item {hotel, item, 1}, the raw id, the display name as both label and location label, and the booking site as carrier |
| `Lodging.MissingDateSkips` | integrations/lodging/airbnb.js:43-70 | a `null` element, or a single-room record lacking a Date object for start or end, is skipped with one error warning and never partially emitted |
| `Lodging.CabinExample` | integrations/lodging/airbnb.js:41-71 | a one-room, two-guest stay in the US that ends at its start instant is emitted with the expected fields, no end date and two participants |
| `Lodging.ThreeRoomsExample` | integrations/lodging/airbnb.js:44-47 | a three-room booking gives no activity and one multi-room warning |
| `Lodging.NormalizeAll` | integrations/lodging/airbnb.js:41-71 | mapping a list keeps its length and order, element i being record i's result, with exactly one warning per skip |
| `Lodging.FetchLodging` | integrations/lodging/airbnb.js:33-72 | the batch always reports the page's own timestamp |
| `Lodging.AbsentLodgingIsEmpty` | integrations/lodging/airbnb.js:33-36 | a missing `LodgingObject` gives no activities, no warnings and `modifiedSince` equal to the page's timestamp (the missing case of `Records`) |
| `Lodging.SingleIsSingletonList` | integrations/lodging/airbnb.js:37-39 | a single non-array object is processed exactly as the one-element list holding it, giving one result (`Records` turns the object into a one-element list) |
| `Lodging.FetchKeepsOrder` | integrations/lodging/airbnb.js:41-72 | the activities before filtering have the same length and order as the records, with one warning per skip |
| `Lodging.JsonRecordIsSkipped` | integrations/lodging/airbnb.js:31-64 | as written, a record whose dates came from `JSON.parse` (never Date objects) is always skipped, with one warning |
| `Lodging.JsonPageEmitsNothing` | integrations/lodging/airbnb.js:31-72 | as written, every entry of the mapped list of a parsed page is a skip |
| `Lodging.ReviveDate` | integrations/lodging/airbnb.js:43 | after the corrected date conversion no date field is left without a Date object, a field is missing exactly when it was missing before, and a Date object is kept as it is |
| `Lodging.NormalizeRevived` | integrations/lodging/airbnb.js:41-71 | with dates converted first, a record is emitted if and only if it is an object, is not multi-room and has both dates; its `datetime` is the converted start; exactly one warning per skip |
| `Lodging.FetchLodgingRevived` | integrations/lodging/airbnb.js:33-72 | the corrected fetch keeps the page's timestamp and maps each record, in order, by the corrected mapping |
| `Lodging.ReviveKeepsDateObjects` | integrations/lodging/airbnb.js:41-72 | on a page whose dates are already Date objects or absent, the corrected fetch equals the fetch as written |
| `Collector.Present` | integrations/lodging/airbnb.js:113 | filtering keeps exactly the activities of the non-null entries and drops as many entries as there are skips |
| `Collector.PresentAppend` | integrations/lodging/airbnb.js:113 | filtering commutes with concatenation, so the order of the kept activities is preserved |
| `Collector.FlattenThenFilter` | integrations/lodging/airbnb.js:113 | the returned activities are the per-query lists, in query order, each with exactly its nulls removed (`Flatten` followed by `Present`) |
| `Collector.FlattenMembership` | integrations/lodging/airbnb.js:113 | an activity is in the list `Flatten` builds if and only if some query mapped some record to it |
| `Collector.MaxTimestamp` | integrations/lodging/airbnb.js:116 | the new checkpoint is at least every reported timestamp and equals one of them |
| `Collector.ResubmittedBatchSameCheckpoint` | integrations/lodging/airbnb.js:116 | submitting the same answers twice derives the same checkpoint |
| `Collector.RepeatedCollectSameResult` | integrations/lodging/airbnb.js:112-119 | collecting the same answers again from the state a collect returned gives the same activities and the same state |
| `Collector.StartCheckpoint` | integrations/lodging/airbnb.js:105-107 | the query uses "now" when the stored checkpoint is absent or 0, and the stored checkpoint otherwise |
| `Collector.Aggregate` | integrations/lodging/airbnb.js:112-119 | the result holds the per-query activities with nulls removed, in order; the new state keeps the credentials and every other field, has version 1, and its checkpoint is the maximum reported timestamp |
| `Collector.JsonBatchCollectsNothing` | integrations/lodging/airbnb.js:108-113 | as written, a collect over pages parsed from JSON returns no activity |
| `Collector.ConnectorState.constructor` | integrations/lodging/airbnb.js:96 | the default `state = {}` has no credentials, checkpoint, version or other field |
| `Collector.ConnectorState.CollectWith` | integrations/lodging/airbnb.js:104-119 | the stored checkpoint is defaulted in place and is the one the query uses; the other stored fields are unchanged; the result is the aggregation of that one query's answer; the returned checkpoint is the answer's timestamp; the warnings are those the mapping logged |
| `Collector.ConnectorState.Collect` | integrations/lodging/airbnb.js:96-120 | `collect` as written: the same in-place default and unchanged fields, the result is the aggregation of the as-written fetch of the one page the query returns, and a page parsed from JSON yields no activity |
| `Collector.ConnectorState.CollectCorrected` | integrations/lodging/airbnb.js:96-120 | the corrected `collect` (dates converted through `parseDate`): the same in-place default and unchanged fields, and the result is the aggregation of the corrected fetch of the page |

## Findings

| source | as written | input that shows it | evidently intended | confidence | as-written member | corrected member |
|---|---|---|---|---|---|---|
| integrations/lodging/airbnb.js:31-64 | the page is produced by `JSON.parse`, which never yields a Date, yet the end and start dates are used through `getTime()`; the call throws and the record is skipped | a reservation with `number_rooms: "1"`, `StartDateTime: "2020-01-01T15:00:00Z"`, `EndDateTime: "2020-01-03T11:00:00Z"` is skipped with "Skipping item having error", so a collect returns no activities | convert the date fields to Date objects (for example `new Date(text)`) before computing the duration | high; not executed | `Lodging.JsonRecordIsSkipped` | `Lodging.NormalizeRevived` |

The mapping and `collect` are modelled exactly as written (`NormalizeRecord`,
`FetchLodging`, `ConnectorState.Collect`), over records whose dates may be
Date objects. The corrected mapping converts date texts first, through a
`parseDate` parameter (`NormalizeRevived`, `FetchLodgingRevived`), and
`ConnectorState.CollectCorrected` runs the same collect over it. Both collects
share `ConnectorState.CollectWith`. `ReviveKeepsDateObjects` shows that the two
fetches agree whenever the dates already are Date objects.

## Left out

- `connect` (lines 75-89): a credential prompt and a vendor login handshake. Its only logic returns the username and password; the `return {}` on line 88 is unreachable.
- `disconnect` (lines 91-94): a recursive removal of the session directory, which is filesystem I/O.
- Vendor client construction, `_authentication_by_email`, `_load_session` and `_get_reservations` (lines 25-31, 97-102): opaque calls into the vendor library. Their parsed answer is the `query` parameter.
- Request building (lines 26-31): the page size, the sort order, the formatting of the checkpoint as `YYYY-MM-DD`, and `JSON.parse` of the answer. These are library calls that only build or parse the request. The checkpoint itself is passed to `query`.
- `Promise.all` (lines 108-110): the sub-queries are a plain sequence; the source issues one of them.
- `console.log` and `logDebug` (lines 32, 83, 104) carry no behaviour. The warning texts are modelled as `Warning` values, not strings.
- The descriptor `config` (lines 12-20): only its `version` is used by the core.
- The shared `definitions` module is not part of this model. Its three constants are symbolic tags.
- Coordinates: `parseFloat` of the coordinates is not computed. The value is identified by the text it is read from.
- MaxTimestamp: requires at least one answer and a timestamp on every answer. Without a timestamp the source computes NaN, and the model does not represent NaN checkpoints.
- Collect: requires the answer to the query it issues to carry a timestamp, for the same reason; so do CollectWith and CollectCorrected.
- The JavaScript distinction between `null` and `undefined` in copied fields is not kept; both are `None`. A primitive element of the list reads like a record with every field absent.
- The `Date` object that line 106 stores and the number in the source's state are both modelled as integer milliseconds.
