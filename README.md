# IoT PV telemetry service: schema translation, event store, events page

This project models the two parts of the IoT PV Data Service that hold logic.

- **Backend** (`backend/src/main.py`). A nested telemetry payload is flattened into the
  fourteen columns of an `iot_events` row. Four projections (`location`, `measurements`,
  `status`, `meta_info`) rebuild the nested groups from a row. Before validation, a payload
  that carries its metadata under the alias `meta_info` has that entry moved to `metadata`.
  `submit_data` appends one row, and the store assigns it a fresh id. `get_events` returns
  every row.
- **Frontend** (`frontend/src/app/page.tsx`). The events page filters the fetched events by
  device-id search text (ASCII case-insensitive) and timestamp prefix. It shows ten rows per
  page, and Prev/Next buttons step through the pages. Changing either filter goes back to
  page 1.

Modules, one per file:

| file | module | what it holds |
|---|---|---|
| `telemetry_record.dfy` | `TelemetryRecord` | payload and row datatypes, `Flatten`, the four projections, `Nest`, `Respond` |
| `meta_info_alias.dfy` | `MetaInfoAlias` | the in-place `meta_info` to `metadata` rewrite and its specification `Promoted` |
| `event_store.dfy` | `EventStore` | the `Store` class: rows, id counter, `Submit`, `GetEvents` |
| `event_filter.dfy` | `EventFilter` | ASCII lower-casing, `includes`, `startsWith`, the filter predicate and `Filter` |
| `pagination.dfy` | `Pagination` | `TotalPages`, JavaScript `slice`, `Page`, the button guards |
| `events_page.dfy` | `EventsPage` | the `EventsView` class: page state and its event handlers |

Floating-point measurements and coordinates are `real` values. They are only copied. The
timestamp is a string. The datastore's commit verdict is a parameter of `Submit`. The
fetched event list is a parameter of `OnEventsLoaded`.

## Model

| member | source | states |
|---|---|---|
| `TelemetryRecord.StatusWithoutFault` | backend/src/main.py:98-100 | the status a payload gets when `fault_code` is omitted; how it is stored is the contract of `OmittedFaultStoredAsNull` |
| `TelemetryRecord.OmittedFaultStoredAsNull` | backend/src/main.py:98-100 | a payload whose status omitted `fault_code` is stored with a null `fault_code` column whatever `operational` is, and reads back as the same defaulted status |
| `TelemetryRecord.LocationOf` | backend/src/main.py:57-59 | the `location` view of a row; `Flatten`'s contract proves it gives back the payload's `location` |
| `TelemetryRecord.MeasurementsOf` | backend/src/main.py:61-69 | the `measurements` view of a row; `Flatten`'s contract proves it gives back the payload's five measurements |
| `TelemetryRecord.StatusOf` | backend/src/main.py:71-73 | the `status` view of a row; `Flatten`'s contract proves it gives back the payload's `status` |
| `TelemetryRecord.MetaInfoOf` | backend/src/main.py:75-77 | the `meta_info` view of a row; `Flatten`'s contract proves it gives back the payload's `metadata` |
| `TelemetryRecord.Flatten` | backend/src/main.py:146-161 | round trip: each projection of the flattened row equals the payload's group (`location`, `measurements`, `status`, `meta_info` = `metadata`); `device_id` and `timestamp` are kept |
| `TelemetryRecord.Nest` | backend/src/main.py:57-77 | re-nesting a row through the four projections loses no column: flattening the result gives the row back |
| `TelemetryRecord.Respond` | backend/src/main.py:124-126 | the response carries the row's id, and its nested fields flatten back to the stored row |
| `TelemetryRecord.NestFlatten` | backend/src/main.py:146-161 | flatten followed by re-nesting reproduces the payload exactly |
| `TelemetryRecord.FlattenInjective` | backend/src/main.py:146-161 | two payloads stored as the same row are the same payload |
| `TelemetryRecord.FaultCodeIndependent` | backend/src/main.py:157-158 | every combination of `operational` and `fault_code` is stored as given, with no coupling |
| `MetaInfoAlias.Promoted` | backend/src/main.py:117-122 | afterwards `meta_info` never appears without `metadata`; `metadata` is present iff either spelling was; every other key and its value is unchanged |
| `MetaInfoAlias.AllowMetaInfo` | backend/src/main.py:117-122 | a dict argument is rewritten in place to `Promoted` of its old entries and returned; any other value is returned untouched |
| `MetaInfoAlias.PromotesAlias` | backend/src/main.py:120-121 | with only `meta_info` present, `metadata` gets its value, `meta_info` disappears, and the size is kept |
| `MetaInfoAlias.KeepsOtherwise` | backend/src/main.py:119-122 | with `metadata` already present, or no `meta_info`, the dict is unchanged |
| `MetaInfoAlias.PromotedIdempotent` | backend/src/main.py:117-122 | rewriting twice equals rewriting once |
| `MetaInfoAlias.AliasEquivalence` | backend/src/main.py:112-122 | a body with metadata under `meta_info` and the same body with it under `metadata` both become the same dict |
| `EventStore.WellKeyedDistinct` | backend/src/main.py:37 | in a well-keyed table no two rows share an id |
| `EventStore.Store.constructor` | backend/src/main.py:34-37 | an empty table whose id sequence starts at 1 |
| `EventStore.Store.Submit` | backend/src/main.py:162-165 | on commit, exactly one row is appended; its columns are the flattened payload and its id is positive and unused; earlier rows are unchanged; duplicates are accepted; its response echoes the payload; on failure the table is unchanged |
| `EventStore.Store.GetEvents` | backend/src/main.py:167-169 | returns every stored row, with pairwise distinct ids, and changes nothing |
| `EventStore.SubmitThenList` | backend/src/main.py:144-169 | after a submit, the listing ends with the submitted payload under its id, and two listings in a row are equal |
| `EventFilter.LowerChar` | frontend/src/app/page.tsx:45 | ASCII upper-case letters move to lower case; every other character is kept; the result is never upper-case |
| `EventFilter.ToLower` | frontend/src/app/page.tsx:45 | same length; no upper-case ASCII letter is left; a string without upper-case ASCII letters is returned unchanged |
| `EventFilter.ToLowerIdempotent` | frontend/src/app/page.tsx:45 | lower-casing twice is lower-casing once |
| `EventFilter.StartsWith` | frontend/src/app/page.tsx:46 | true iff the timestamp is the date filter followed by some rest |
| `EventFilter.Matches` | frontend/src/app/page.tsx:44-47 | an event matches iff its lower-cased id includes the lower-cased search and its timestamp starts with the date filter; the empty-filter short-cuts change nothing |
| `EventFilter.Includes` | frontend/src/app/page.tsx:45 | true iff the search text occurs at some index of the string |
| `EventFilter.Filter` | frontend/src/app/page.tsx:43-48 | an event is in the result iff it is in the input and passes both tests; the result is no longer than the input |
| `EventFilter.FilterIsSubsequence` | frontend/src/app/page.tsx:43 | the filtered list is an order-preserving subsequence of the events |
| `EventFilter.FilterAppend` | frontend/src/app/page.tsx:43-48 | filtering a concatenation is the concatenation of the filtered parts |
| `EventFilter.FilterNoCriteria` | frontend/src/app/page.tsx:44-46 | with empty search and empty date filter every event is shown, in order |
| `EventFilter.MatchIgnoresCase` | frontend/src/app/page.tsx:45 | two search texts that lower-case alike select the same events |
| `Pagination.TotalPages` | frontend/src/app/page.tsx:51 | the ceiling of n/10: `n <= 10 * r < n + 10`; zero pages iff no rows |
| `Pagination.SliceBound` | frontend/src/app/page.tsx:52-55 | every slice bound, negative or past the end, resolves to a valid position in `0..len` |
| `Pagination.Slice` | frontend/src/app/page.tsx:52-55 | never longer than the list; in-range bounds give `s[start..end]`; an end past the list cuts at the list's end; an end at or before the start gives nothing; a negative start counts from the end |
| `Pagination.Page` | frontend/src/app/page.tsx:52-55 | every page, for any page number, holds at most ten rows |
| `Pagination.PageWindow` | frontend/src/app/page.tsx:52-55 | for page p >= 1, the page is `s[min((p-1)*10, n) .. min(p*10, n)]`, has at most 10 rows, and is non-empty iff p <= totalPages |
| `Pagination.PagesFromRest` | frontend/src/app/page.tsx:51-55 | pages p..totalPages together are the list from row `(p-1)*10` on |
| `Pagination.PagesReassemble` | frontend/src/app/page.tsx:51-55 | concatenating pages 1..totalPages gives back exactly the filtered list |
| `Pagination.GuardsKeepRange` | frontend/src/app/page.tsx:126-139 | Prev is disabled iff on page 1, Next iff on page totalPages; from a page in 1..totalPages each enabled button reaches a page in range |
| `Pagination.PrevEnabled` | frontend/src/app/page.tsx:127 | the Prev guard as written; `GuardsKeepRange` proves it is off exactly on page 1 and keeps the page in range |
| `Pagination.NextEnabled` | frontend/src/app/page.tsx:137 | the Next guard as written; `GuardsKeepRange` proves it is off exactly on page totalPages, and `NextNeverDisabledWhenEmpty` shows it is never off with no rows |
| `Pagination.NextNeverDisabledWhenEmpty` | frontend/src/app/page.tsx:136-139 | with no rows, Next stays enabled on every page and leads past the last page to an empty slice |
| `Pagination.BoundedGuardKeepsRange` | frontend/src/app/page.tsx:136-139 | the guard `currentPage < totalPages` agrees with the written one on non-empty lists, is disabled with no pages, and keeps the page in 1..max(totalPages, 1) |
| `EventsPage.EventsView.constructor` | frontend/src/app/page.tsx:17-25 | no events, empty search and date filter, page 1 |
| `EventsPage.EventsView.Filtered` | frontend/src/app/page.tsx:43-48 | `filteredEvents` is an order-preserving subsequence of `events`, and equals it while both filters are empty |
| `EventsPage.EventsView.PageCount` | frontend/src/app/page.tsx:51 | `totalPages` is the fewest ten-row pages that hold the filtered events |
| `EventsPage.EventsView.Paginated` | frontend/src/app/page.tsx:52-55 | at most ten rows; for page >= 1 the window of the filtered list from row `(currentPage-1)*10`; non-empty iff the page is one of 1..totalPages |
| `EventsPage.EventsView.OnEventsLoaded` | frontend/src/app/page.tsx:31-33 | the fetched list replaces the events; filters and page are kept |
| `EventsPage.EventsView.OnSearchChange` | frontend/src/app/page.tsx:67-70 | the search text is set and the page goes back to 1; nothing else changes |
| `EventsPage.EventsView.OnDateChange` | frontend/src/app/page.tsx:76-79 | the date filter is set and the page goes back to 1; nothing else changes |
| `EventsPage.EventsView.OnPrev` | frontend/src/app/page.tsx:126-128 | the page decreases by one iff it was not 1; it stays >= 1 and in range; the rest is unchanged |
| `EventsPage.EventsView.OnNext` | frontend/src/app/page.tsx:136-138 | the page increases by one iff it was not totalPages; it stays in range when there is at least one page |

## Findings

| source | as written | input that shows it | evidently intended | confidence | as-written member | corrected member |
|---|---|---|---|---|---|---|
| frontend/src/app/page.tsx:137 | Next is disabled only when `currentPage === totalPages` | no event passes the filters, so `totalPages` is 0 while `currentPage` is 1 | Next disabled on the last page and beyond (`currentPage >= totalPages`) | high; not executed | `Pagination.NextNeverDisabledWhenEmpty` | `Pagination.BoundedGuardKeepsRange` |

With no matching events the page reads "Page 1 of 0". Next stays clickable and counts up
without limit. `EventsPage.EventsView.OnNext` keeps the guard exactly as the page has it.
The bounded guard `Pagination.NextEnabledBounded` is the intended behaviour, and
`Pagination.BoundedGuardKeepsRange` proves its range property.

## Left out

- Database configuration, engine and pool settings, and table creation (`backend/src/main.py:12-31`, `80`). These are environment and library setup.
- The session lifecycle of `get_db` (rollback and close). `Store.Submit` is all-or-nothing on the abstract table instead. Its `commitSucceeds` parameter stands for the datastore's verdict.
- Pydantic validation and coercion of the request body, including `datetime` parsing. `Submit` takes an already validated `Payload`. When a body has both `metadata` and `meta_info`, the rewrite leaves it alone. Which of the two keys the validator then reads is library behaviour and is not modelled.
- FastAPI routing and response serialisation, including the key under which the metadata group is written out. `Respond` gives the response's content, not its JSON.
- EventStore.Store.GetEvents: no read-failure path and no ordering guarantee. The model returns rows in insertion order. The datastore's scan order and a failed query are not modelled.
- EventStore.Store.Submit: the response echoes the timestamp string unchanged. The real `timestamp` column is a `DateTime` without time zone (`backend/src/main.py:39`), and the response is read back from the row after commit and refresh. A timestamp sent with an offset, such as `Z`, comes back without it, converted to the database session's zone.
- EventStore.Store.Submit: the id counter is an unbounded `nat`. The real `id` is a 32-bit integer serial (`backend/src/main.py:37`) and can run out.
- EventStore.Store.Submit: requests run one after another. The service may handle requests concurrently, and ids are drawn at insert time, so commit order need not follow id order. The invariant that ids increase in row order holds only for this sequential model.
- EventStore.Store.Submit: on failure the id counter is left as it was. A real sequence may skip ids after a rollback; the model does not show such gaps.
- Float semantics (NaN, rounding) of measurements and coordinates. Values are only copied, so they are `real`.
- `toLowerCase` beyond ASCII. `EventFilter.ToLower` maps only `A`-`Z`.
- `fetch`, `useEffect`, the loading flag and all rendering (`frontend/src/app/page.tsx:28-41`, `57-147`). The fetched list enters through `OnEventsLoaded`. A failed fetch leaves the events empty, as the constructor sets them.
- The frontend's `Event` type reads `ac_power` and `temperature_module` at top level, while the backend nests them under `measurements`. The filter and the pager touch only `device_id` and `timestamp`, so the two shapes are not reconciled.
- `frontend/next.config.mjs`: a static rewrite and base path, with no logic.
