# Studio-booking calendar: status normalisation and grid derivation

A Dafny model of the part of the studio-booking front end that turns one booking-calendar
grid from the backend (a usage date, the period order, and one row per studio holding that
studio's slots) into what the screens use. It covers three consumers of the grid.

- **The display transformer** (`ApiTransformers`, `api_transformers.dfy`). It maps the backend
  status vocabulary (`空`, `予約済み`, `予約確定`, `使用中`, `予約キャンセル`) onto the four
  display statuses, with 'available' as the fallback. It renders each slot's start and end as
  `HH:mm–HH:mm`, where the separator is U+2013. It rebuilds rows and slots into display studios
  and periods, keeping their order. JavaScript's `String.prototype.split` with a one-character
  separator and `substring(0, 5)` are modelled explicitly (`Split`, `Prefix`). `Split` is proved
  against its inverse `Join` and against a first-occurrence description (`IndexOf`).
- **The schedule store** (`Schedule`, `schedule.dfy`). This is a class with the store's six
  fields. `SetDate` changes the date. `Load` is split into `BeginLoad` (raise the flag, clear
  the error) and `FinishLoad`: a fetched grid replaces studios, periods and the cell lookup
  wholesale, while an error only records its message. `GetCell` looks up a
  `studioId + ":" + periodId` key. The store has its own status normaliser, whose fallback is
  "予約済". The nested loop that fills the lookup is the method `BuildCells`. It is proved
  equal to the specification function `CellsOf`, which records the flattened slots one after
  another. The lemmas give the exact key set and the "later slot wins" rule.
- **The available-slot projection** (`ApiSlots`, `api_slots.dfy`). This is the nested
  `for`/`push` loop `CollectAvailableSlots`. It is proved equal to `AvailableSlotsOf`, the
  in-order filter of the flattened slots. A slot counts as empty when its booking identifier is
  missing or `""`, or when its status is `空`.

`CalendarTypes` (`calendar_types.dfy`) holds the grid schema and `Flatten`. `Flatten` lists the
slots in row order and then slot order, which is the order both nested loops visit them.
`ConsumerAgreement` (`consumer_agreement.dfy`) relates the consumers to each other. It also
proves the worked two-studio scenario and holds a client of the store that uses only the
store's contracts.

Modelling choices:

- The fetch is an input. `Load(fetch)` takes the fetch of a date's grid as a total function
  `string -> FetchResult`, where `FetchResult = Ok(view) | Err(message)`. `Err` stands for the
  thrown error's message (`e?.message ?? String(e)`).
- The initial `usageDate`, which the source reads from the clock, is a constructor parameter.
- A raw status is kept as a string, so unknown tokens reach each normaliser's fallback. A
  missing status behaves in all three consumers exactly like an unknown token.
- Optional fields are an `Option`. `None` stands for a missing key, `undefined` or `null`.
  Only the emptiness test of the projection treats all three alike
  (`!("bookingId" in s) || !s.bookingId`). The copies made by `transformSlotView` and by
  `load` keep a `null` apart from a missing key; see "Left out".
- Period identifiers are strings. The grid's `periodOrder` is authoritative and is copied
  unchanged.
- The field `label` of a display period is called `periodLabel`, because `label` is a Dafny
  keyword.

Three behaviours a reader might expect are not what the code does, and the model follows the code:

- A stricter emptiness rule, no booking identifier *and* a status showing no occupancy, is not
  what the code does. The code uses *or*: a slot without a booking identifier is listed
  whatever its status says (`ListedNeedNotBeFree`), and a `空` slot is listed even if it has a
  booking identifier.
- A request-generation counter that discards the responses of superseded loads is not in the
  code, and not in the model either.
- An error message that is always non-empty is not guaranteed by the code: it stores whatever
  message the error carries, possibly `""`, and so does the model.

## Model

| member | source | states |
|---|---|---|
| `CalendarTypes.FlattenAt` | studio-frontend/src/lib/apiSlots.ts:18-19 | slot j of row i is visited at position (slots of rows before i) + j, so the visit order is row order, then slot order within a row |
| `CalendarTypes.FlattenSnoc` | studio-frontend/src/lib/apiSlots.ts:18-19 | visiting one more row appends that row's slots, tagged with its studio id, after those of the earlier rows |
| `CalendarTypes.FlattenIndex` | studio-frontend/src/stores/schedule.ts:38-39 | every visited position is slot j of some row i, and the visit carries that row's studio id |
| `CalendarTypes.PositionOrder` | studio-frontend/src/lib/apiSlots.ts:18-19 | one slot is visited before another iff its row comes earlier, or it is earlier in the same row |
| `CalendarTypes.TotalSlotsPrefix` | studio-frontend/src/lib/apiSlots.ts:18-19 | the rows before row i hold no more slots than the rows before any later row; one more row adds exactly its own slots |
| `ApiTransformers.MapStatusToFrontendCases` | studio-frontend/src/lib/apiTransformers.ts:20-34 | `空`→available, `予約済み`/`予約確定`→booked, `使用中`→in_use, `予約キャンセル`→canceled, every other string→available |
| `ApiTransformers.MapStatusToFrontend` | studio-frontend/src/lib/apiTransformers.ts:20-34 | both directions: booked iff one of the two reservation tokens; in_use and canceled iff their token; available iff `空` or outside the vocabulary |
| `ApiTransformers.ReservationTokensAgree` | studio-frontend/src/lib/apiTransformers.ts:24-26 | the tentative and confirmed reservation tokens give the same status, booked |
| `ApiTransformers.Split` | studio-frontend/src/lib/apiTransformers.ts:41-42 | `split` with a one-character separator gives at least one part, and no part contains the separator |
| `ApiTransformers.JoinSplit` | studio-frontend/src/lib/apiTransformers.ts:41-42 | joining the parts of a split with the separator gives back the input |
| `ApiTransformers.SplitJoin` | studio-frontend/src/lib/apiTransformers.ts:41-42 | splitting a join of separator-free parts gives back the parts |
| `ApiTransformers.SplitFirst` | studio-frontend/src/lib/apiTransformers.ts:41-42 | part 0 runs up to the first separator; the remaining parts are the split of the text after it |
| `ApiTransformers.Prefix` | studio-frontend/src/lib/apiTransformers.ts:41-42 | `substring(0, n)` is the prefix of length exactly n, or the whole string when it is no longer than n |
| `ApiTransformers.TimeOfDay` | studio-frontend/src/lib/apiTransformers.ts:41-42 | input without `T` is kept unchanged; input with `T` gives the ≤5-character prefix of the text between the first `T` and the next `T` (or the end); every output character comes from the input |
| `ApiTransformers.TimeOfDayOfTimestamp` | studio-frontend/src/lib/apiTransformers.ts:41-42 | `date + "T" + time`, with no `T` in either part, shows the first five characters of `time` |
| `ApiTransformers.FormatTimeRange` | studio-frontend/src/lib/apiTransformers.ts:39-44 | inputs without `T` give exactly `start + "–" + end`; in every case the en dash sits right after the displayed start |
| `ApiTransformers.FormatTimeRangeOfTimestamps` | studio-frontend/src/lib/apiTransformers.ts:39-44 | two timestamps render as `HH:mm–HH:mm` using the first five characters of each time part |
| `ApiTransformers.FormatTimeRangeExample` | studio-frontend/src/lib/apiTransformers.ts:39-44 | `2024-04-01T09:00:00` with `2024-04-01T10:30:00` renders as `09:00–10:30` |
| `ApiTransformers.FormatTimeRangeBare` | studio-frontend/src/lib/apiTransformers.ts:39-44 | bare `09:00` and `10:30` render as `09:00–10:30` |
| `ApiTransformers.FormatTimeRangeSplits` | studio-frontend/src/lib/apiTransformers.ts:43 | when no input contains an en dash, splitting the rendering at the en dash gives back exactly the two displayed times |
| `ApiTransformers.GetPeriodLabel` | studio-frontend/src/lib/apiTransformers.ts:49-51 | a period's label is its identifier; there is no label table |
| `ApiTransformers.TransformSlotView` | studio-frontend/src/lib/apiTransformers.ts:56-65 | id and label are the period id, the time range is the formatted start/end, the status is the display normalisation, and reservation type and event name are copied unchanged |
| `ApiTransformers.TransformSlotViewIgnoresBooking` | studio-frontend/src/lib/apiTransformers.ts:56-65 | the display slot reads neither `bookingId` nor `graceExpired`: slots that differ only there display alike |
| `ApiTransformers.TransformSlots` | studio-frontend/src/lib/apiTransformers.ts:74 | `slots.map(transformSlotView)` has one element per slot, and element j comes from slot j |
| `ApiTransformers.TransformStudioRow` | studio-frontend/src/lib/apiTransformers.ts:70-76 | id = studioId, name = studioName, and periods has the slots' length, element j being slot j transformed |
| `ApiTransformers.TransformRows` | studio-frontend/src/lib/apiTransformers.ts:82 | `rows.map(transformStudioRow)` has one studio per row, and studio i comes from row i |
| `ApiTransformers.TransformBookingCalendarToStudios` | studio-frontend/src/lib/apiTransformers.ts:81-83 | one studio per row in row order (none for no rows); each keeps its row's id and name, and has one period per slot in slot order |
| `Schedule.MapStatusToUiCases` | studio-frontend/src/stores/schedule.ts:65-74 | `空`→`空`, `予約済み`/`予約確定`→`予約済`, `使用中`→`使用中`, `予約キャンセル`→`キャンセル`, every other string→`予約済` |
| `Schedule.MapStatusToUi` | studio-frontend/src/stores/schedule.ts:65-74 | both directions: `空` iff the empty token; `予約済` iff a reservation token or outside the vocabulary; the other two iff their token |
| `Schedule.CellKey` | studio-frontend/src/stores/schedule.ts:41 | the key is the studio id, then `:`, then the period id, with the matching length |
| `Schedule.CellKeyInjective` | studio-frontend/src/stores/schedule.ts:41 | for colon-free studio ids, two keys are equal iff their studio and period are equal |
| `Schedule.CellKeyCollision` | studio-frontend/src/stores/schedule.ts:41 | without that proviso, different pairs can share a key: ("A:B","C") and ("A","B:C") |
| `Schedule.CellOf` | studio-frontend/src/stores/schedule.ts:40-47 | a stored cell has the store normalisation of the slot's status, and the slot's bookingId, reservationType, eventName and graceExpired |
| `Schedule.CellsFromKeys` | studio-frontend/src/stores/schedule.ts:37-49 | the keys of the built lookup are exactly the keys of the recorded slots |
| `Schedule.CellsFromLastWins` | studio-frontend/src/stores/schedule.ts:41-47 | a key holds the cell of the last slot recorded under it |
| `Schedule.CellsOfKeyHasSlot` | studio-frontend/src/stores/schedule.ts:37-50 | every key of the built lookup comes from some slot of some row |
| `Schedule.CellsOfSlotHasKey` | studio-frontend/src/stores/schedule.ts:38-47 | every slot of every row leaves its key in the built lookup |
| `Schedule.CellsOfKeys` | studio-frontend/src/stores/schedule.ts:37-50 | both directions: a key is in the lookup iff some slot of some row of the grid produces it |
| `Schedule.CellsOfLastWins` | studio-frontend/src/stores/schedule.ts:38-48 | slot (i, j) owns its key's cell unless a later slot in row/slot order has the same key; when two slots share a key, the later one wins |
| `Schedule.NoGhostCells` | studio-frontend/src/stores/schedule.ts:32-50 | with colon-free ids, a studio absent from the new grid has no cell at all, so no old entry survives a reload |
| `Schedule.CellsFromSnoc` | studio-frontend/src/stores/schedule.ts:41 | recording one more slot overwrites that slot's key and leaves every other key alone |
| `Schedule.CellsFromRowStep` | studio-frontend/src/stores/schedule.ts:39-47 | recording slot j of a row, after the earlier rows and the row's first j slots, overwrites only that slot's key with its cell |
| `Schedule.BuildCells` | studio-frontend/src/stores/schedule.ts:37-49 | the nested loop builds exactly `CellsOf(rows)` in a fresh lookup |
| `Schedule.StudioIds` | studio-frontend/src/stores/schedule.ts:33 | `rows.map(r => r.studioId)`: one id per row, in row order |
| `Schedule.ScheduleStore.constructor` | studio-frontend/src/stores/schedule.ts:15-22 | initial state: the given date, no studios, periods P1..P5, no cells, not loading, no error |
| `Schedule.ScheduleStore.SetDate` | studio-frontend/src/stores/schedule.ts:25 | sets usageDate and leaves every other field unchanged |
| `Schedule.ScheduleStore.BeginLoad` | studio-frontend/src/stores/schedule.ts:28 | loading becomes true and error `""`; date, studios, periods and cells are unchanged |
| `Schedule.ScheduleStore.FinishLoad` | studio-frontend/src/stores/schedule.ts:30-55 | on a grid, studios/periods/cells become the grid's row ids, its periodOrder and `CellsOf(rows)`; on an error, they stay and error becomes the message; loading is false after both |
| `Schedule.ScheduleStore.Load` | studio-frontend/src/stores/schedule.ts:27-56 | fetches the current date; after success the state is replaced wholesale and error is `""`; after failure the previous studios, periods, cells and date stay and error holds the message; loading ends false |
| `Schedule.ScheduleStore.GetCell` | studio-frontend/src/stores/schedule.ts:59-61 | the cell under `studioId + ":" + period` if present, otherwise None; it only reads |
| `ApiSlots.IsEmptySlot` | studio-frontend/src/lib/apiSlots.ts:20-21 | a slot is judged occupied iff it has a non-empty bookingId and a status other than `空`; a missing, `undefined`, `null` or `""` bookingId, or the status `空`, makes it empty |
| `ApiSlots.ProjectSnoc` | studio-frontend/src/lib/apiSlots.ts:20-27 | visiting one more slot appends its record iff the slot is empty |
| `ApiSlots.EmptyPositionsExact` | studio-frontend/src/lib/apiSlots.ts:20-22 | the listed positions are ascending, and a position is listed iff its slot is empty |
| `ApiSlots.ProjectFilters` | studio-frontend/src/lib/apiSlots.ts:17-31 | output length equals the number of empty slots (≤ slot count), and entry k is the record of the k-th empty slot: an in-order filter |
| `ApiSlots.ProjectRowStep` | studio-frontend/src/lib/apiSlots.ts:19-28 | visiting slot j of a row, after the earlier rows and the row's first j slots, appends (row's studio, grid date, slot period) iff the slot is empty |
| `ApiSlots.CollectAvailableSlots` | studio-frontend/src/lib/apiSlots.ts:17-31 | the nested loop returns exactly the in-order filter-and-map of the flattened slots |
| `ApiSlots.AvailableSlotsMembership` | studio-frontend/src/lib/apiSlots.ts:20-27 | both directions: a record is listed iff some empty slot yields it, with its row's studioId, the grid's usageDate and the slot's periodId |
| `ApiSlots.AvailableSlotsOrder` | studio-frontend/src/lib/apiSlots.ts:18-23 | of two empty slots, the one earlier in row order (or earlier in its row) is listed first |
| `ApiSlots.OccupiedSlotNeverListed` | studio-frontend/src/lib/apiSlots.ts:20-22 | a slot with a non-empty bookingId and a status other than `空` is never listed |
| `ApiSlots.AvailableSlotsBound` | studio-frontend/src/lib/apiSlots.ts:17-31 | there are at most as many records as slots, and none for a grid with zero rows |
| `ConsumerAgreement.NormalisersAgreeOnVocabulary` | studio-frontend/src/stores/schedule.ts:65-74 | the store and display normalisers name the same state iff the token is in the vocabulary |
| `ConsumerAgreement.FallbacksDiffer` | studio-frontend/src/stores/schedule.ts:72 | an unknown token is available on display but `予約済` in the store |
| `ConsumerAgreement.DisplayedFreeIsListed` | studio-frontend/src/lib/apiSlots.ts:20-21 | a slot shown as available because its status is a vocabulary token is also listed as available |
| `ConsumerAgreement.ListedNeedNotBeFree` | studio-frontend/src/lib/apiSlots.ts:20 | a slot with no bookingId and status `使用中` is listed, yet displayed and stored as in use |
| `ConsumerAgreement.FlattenTwoRows` | studio-frontend/src/lib/apiSlots.ts:18-19 | a two-row grid is visited as the first row's slots, then the second row's |
| `ConsumerAgreement.ScenarioFlatten` | studio-frontend/src/lib/apiSlots.ts:18-19 | the worked two-studio grid is visited as A/P1, A/P2, B/P1 |
| `ConsumerAgreement.ScenarioCells` | studio-frontend/src/stores/schedule.ts:37-50 | in the worked grid, A/P1 becomes a free cell with no booking, and A/P2 a reserved cell carrying "bk1" |
| `ConsumerAgreement.ScenarioAvailable` | studio-frontend/src/lib/apiSlots.ts:17-31 | the worked grid lists exactly one available slot: A, its date, P1 |
| `ConsumerAgreement.ScenarioReload` | studio-frontend/src/stores/schedule.ts:33-50 | reloading with a grid that omits studio B removes B's cell |

## Left out

- Network I/O (`fetch`, HTTP status checks, JSON parsing in `apiCalendar.ts`, `apiSlots.ts` lines 5-15 and `apiClient.ts`) is not modelled. The fetch is an input to `Load`, and the projection takes an already-parsed grid. The other API wrappers (students, equipment, period times, booking creation) pass data through and are not part of this model.
- `formatDateForApi`, `formatDateForDisplay` and `todayIso` depend on JavaScript `Date`, UTC versus local time and the system clock, so they are not modelled. The initial date is a constructor parameter.
- Pinia's `defineStore` plumbing, the router and the build configuration are not modelled. The duplicate type files are not modelled either; `lib/types.ts` is the one schema.
- Concurrency is not modelled. Overlapping `load()` calls, and which response lands last, depend on asynchronous scheduling. Each `Load` here runs to completion.
- Malformed grids are not modelled. The parsed grid here is well-typed, so neither failure below can happen. If `rows` is not an array, or holds a `null` row, `view.rows.map(...)` throws at `schedule.ts:33` before anything is assigned, and the store takes the error path with its old studios, periods and cells. If a row's `slots`, or a slot inside it, is malformed, the throw comes from the lookup loop (`schedule.ts:38-40`) after `studios` and `periods` were already replaced: the store is left with the new studios and periods, the old cells, and the error set.
- TimeOfDay: counts Unicode scalar values, while JavaScript's `substring(0, 5)` counts UTF-16 code units. The two differ only for characters outside the Basic Multilingual Plane.
- NoGhostCells: requires colon-free studio identifiers. The `studioId:periodId` key is ambiguous when an identifier contains `:` (`CellKeyCollision`), so a key from a vanished studio could coincide with one from a present studio.
- `null` versus `undefined` in the copied fields is not modelled. `transformSlotView` (`apiTransformers.ts:62-63`) and `load` (`schedule.ts:43-45`) copy `bookingId`, `reservationType` and `eventName` as they come, so a backend `null` stays `null` while a missing key becomes `undefined`. The model writes both as `None`, so it cannot tell these copies apart.
- JavaScript object-key quirks (`__proto__` and inherited properties) are not modelled. Every key contains `:`, so none of them can be such a name, and a Dafny `map` behaves the same on these keys.
