# Appointment-booking webhook: a Dafny model of its scheduling and bookkeeping core

The server answers three webhook calls from a voice-assistant platform. `POST /checkappointmenttime`
says whether a requested time slot is free. `POST /makeappoint` books a thirty-minute slot after
emailing a confirmation. `POST /logs` records a request and returns no body. The two appointment
handlers pick the first tool call named for them from `message.toolCalls` and do their work. They
then log the request in a request-log worksheet and answer with that tool call's id. Logging adds
one row, preceded by a header row when the worksheet has no records yet. A request that raises
before the logger runs, or in the logger, adds none. Appointments live in a second worksheet, the
ledger, with one row per booking: `[From, To, Name, Email, Intent]`.

Modules:

- `Wrappers`: `Option` and `Result`.
- `Sheets`: worksheets as sequences of rows. The first row is the header and every later row is
  a record, which is how `get_all_records` reads a sheet. The lazy-header append (`WithHeader`)
  lives here, with a `Sheet` class whose `AppendRow` changes the rows in place.
- `Overlap`: half-open intervals `[from, to)`, the overlap test, `Available` and `Disjoint`.
- `Requests`: the tool-call envelope and the exceptions a handler can end in (`Failure`). It also
  holds the search for the first matching tool call, both as a specification (`FirstMatch`) and
  as the loop with `break` (`FindToolCall`).
- `Availability`: the availability check's loop over the ledger records, `ScanRecords`. It is
  proved equal to `Scan`, and `Scan` is proved equal to `Available` when every record parses.
- `Server`: the logger, both handlers and `/logs`, and lemmas that tie a booking to later checks.

Timestamps are whole minutes; seconds and microseconds are dropped. A string that `datetime.fromisoformat` accepts is the cell
`Value.Time(t)`; any other cell fails to parse. Python exceptions become `Err(Failure)`. The
source cases are these:

- a missing key is a `KeyError`;
- a bad timestamp is a `ValueError` or `TypeError`;
- `tool_id` read while unbound is an `UnboundLocalError`.

When no tool call matches, the handler still logs before it fails, as in the source. The logger
runs before `tool_id` is read.

Some behaviours of the code are easy to misread. The model states them as the code has them:

- Booking never checks the stored appointments' times. It reads the ledger only to decide whether
  to add the header. So "no two appointments overlap" is not an invariant of the ledger, and
  `BookingAllowsDoubleBooking` shows two overlapping rows. Non-overlap is kept when the booked slot
  is free, which a check of that slot just before the booking establishes
  (`CheckThenBookKeepsDisjoint`). Nothing in the booking path ensures it.
- A malformed stored timestamp does not always fail the check. The loop stops at the first
  overlap, so a malformed record after it is never parsed (`ScanErrorDependsOnOrder`). The answer
  is independent of record order when every record parses (`ScanOrderIndependent`). Once a record
  is malformed, order can change the answer (`ScanErrorDependsOnOrder`).
- Not every request produces a log row. A request that raises before the logger runs (a missing
  `toolCalls`, a missing argument, a bad timestamp) writes nothing. In this model that is the
  `Err` case of `LogAfter`.
- The `"No data"` fallback for an empty payload can never be written. The logger reads
  `data["message"]["call"]["id"]` before it builds the row, so an empty payload raises first
  (`LogEntry` proves the data field is always the payload's JSON).
- "Has no records" means "at most one row". A ledger holding only its header row therefore gets a
  second header on the next booking. Every later check then fails to parse `"From"`
  (`HeaderOnlyLedgerBreaksCheck`).

## Model

| member | source | states |
|---|---|---|
| `Overlap.OverlapsSymmetric` | server.py:147 | The overlap test is symmetric in the requested and the stored interval. |
| `Overlap.TouchingDoesNotOverlap` | server.py:147 | Both comparisons are strict, so a request that starts when an appointment ends, or ends when one starts, does not overlap it. |
| `Overlap.AvailableWhenEmpty` | server.py:126-149 | With no stored appointments every slot is available. |
| `Overlap.AvailableIff` | server.py:142-149 | A slot is available exactly when every stored appointment ends at or before its start or starts at or after its end. |
| `Overlap.AvailableConcat` | server.py:142-149 | Availability against the concatenation of two interval sequences is availability against each of them. |
| `Overlap.AvailableOrderIndependent` | server.py:142-149 | Two interval sequences with the same multiset of intervals give the same availability answer. |
| `Overlap.CheckedBookingKeepsDisjoint` | server.py:142-149 | Adding a slot that is available against pairwise-disjoint appointments keeps them pairwise disjoint. |
| `Overlap.UncheckedBookingBreaksDisjoint` | server.py:199-213 | Adding a slot that overlaps a stored appointment leaves two overlapping appointments. |
| `Sheets.WithHeader` | server.py:184-187 | A lazy-header append keeps every existing row in place. It adds the header and the row (two rows) exactly when the sheet has no records, otherwise just the row (one row). The last row is the appended one. |
| `Sheets.TableRecords` | server.py:182-187 | A sheet holding a header followed by data rows reports exactly those data rows as records. |
| `Sheets.TableAppend` | server.py:182-187 | Appending to an empty sheet or to a header-plus-data sheet gives header plus the data with the new row at the end. The header is written once. |
| `Sheets.WithHeaderRecords` | server.py:184-187 | After an append the records are the old records plus the new row. The exception is a header-only sheet, whose records become a second header and the row. |
| `Sheets.Sheet.constructor` | server.py:25-26 | A worksheet handle starts with the rows the sheet already holds. |
| `Sheets.Sheet.AppendRow` | server.py:187 | `append_row` adds the row after all existing rows and changes nothing else. |
| `Requests.FirstMatch` | server.py:128-129 | Gives no index exactly when no call has the name. Otherwise the index of a call with that name, with none before it. |
| `Requests.FindToolCall` | server.py:128-152 | The search loop with `break` returns exactly the first matching call's index, or none. |
| `Availability.Intervals` | server.py:140-144 | The records parse exactly when each record parses. The parsed list then has one interval per record, and the interval at each position is that record's `From`/`To`. |
| `Availability.ScanRecords` | server.py:142-149 | The flag-and-break loop ends in the specified verdict. That is unavailable at the first overlapping record, or the exception at the first malformed record before any overlap, or available at the end. |
| `Availability.IntervalsAppend` | server.py:140-144 | Appending a parsable record to parsable records appends its interval. |
| `Availability.ScanMeansAvailable` | server.py:142-149 | When all records parse, the loop's answer is exactly `Available`. It reports available only if every record parses and none overlaps. |
| `Availability.AvailableOverRecords` | server.py:142-149 | On parsable records, availability holds exactly when no record, wherever it stands, overlaps the request. |
| `Availability.ScanOrderIndependent` | server.py:126-149 | Rearranging the ledger's records does not change the check's answer when every record parses, and the rearranged records parse too. |
| `Availability.ScanUnavailableWitness` | server.py:146-149 | When the loop reports unavailable, some record parses and overlaps the request. |
| `Availability.ScanErrorDependsOnOrder` | server.py:142-149 | An overlapping record found first hides a malformed record behind it. The same malformed record met first raises. |
| `Server.LogEntry` | server.py:35-58 | The log row raises exactly when `message.call.id` is missing. Otherwise it has the 9 header fields in order: the time, the client host or `"Unknown"`, method, path, status 200, the User-Agent or `"Unknown"`, the payload's call id, the additional message or `""`, and the payload's JSON (never `"No data"`). |
| `Server.Logger.constructor` | server.py:32-33 | A logger is bound to the worksheet it is given. |
| `Server.Logger.LogRequest` | server.py:35-64 | On success the log sheet gains the header (only when it had no records) and then the log row. On the missing-call-id exception, or when the log sheet's calls fail, it is untouched and the call raises. |
| `Server.LogIsNotIdempotent` | server.py:62-64 | Logging the same request a second time appends exactly one more copy of the row after everything the first call left, so the log gains at least two rows. |
| `Server.Finish` | server.py:154-165 | Each handler ends by logging its verdict. It then answers with the bound tool id and the message, or raises if the logger raised (missing call id or failing log sheet) or `tool_id` is unbound. |
| `Server.ReplyNamesFirstMatch` | server.py:128-161 | A handler replies only if some tool call has its name, and then with the id of the first such call. Otherwise it raises even though the log was written. |
| `Server.CheckReplyNamesFirstMatch` | server.py:128-161 | When the availability check replies, the reply carries the id of the first `checkAppointmentTime` tool call. |
| `Server.MakeReplyNamesFirstMatch` | server.py:199-221 | When the booking replies, the reply carries the id of the first `makeAppointment` tool call. |
| `Server.RequestedInterval` | server.py:130-136 | The requested slot is read exactly when `from` and `to` are present and parse, and it is `[from, to)`. |
| `Server.CheckAppointmentTime` | server.py:122-165 | The check leaves the ledger untouched. Its reply and its log write are the verdict on the ledger's records, logged and answered. |
| `Server.CheckAnswersAvailability` | server.py:126-154 | With a well-formed ledger the check answers for the first matching tool call. The answer is "available" exactly when no stored appointment overlaps the slot. |
| `Server.ParseBooking` | server.py:201-206 | A booking is read exactly when `email`, `name`, `date` and `intent` are present and `date` parses. It carries the call's id, those fields and the slot `[date, date + 30)`. |
| `Server.WriteAppointmentToSheet` | server.py:168-192 | It returns true exactly when both times parse and the store accepts. Then the ledger gains `[From, To, Name, Email, Intent]` under a lazy header; otherwise the ledger is untouched. |
| `Server.MakeAppointment` | server.py:194-225 | The ledger, the reply and the log write are exactly those of the specified booking: email first, and the ledger written only after it. |
| `Server.BookingOutcome` | server.py:209-215 | The reply is "Email sent successfully!" exactly when the email and the write both succeed. The ledger changes exactly then, by the appointment row. |
| `Server.NoEmailNoWrite` | server.py:209-211 | When the email fails the ledger is never written. |
| `Server.AppointmentRowReadsBack` | server.py:174-180 | The ledger row written for a booking parses, in the check, back to the booked slot. |
| `Server.BookingAllowsDoubleBooking` | server.py:199-213 | A booking that overlaps a stored appointment is still written, and the ledger then holds two overlapping appointments. |
| `Server.CheckThenBookKeepsDisjoint` | server.py:140-149 | Booking a slot that the check found available keeps a disjoint ledger disjoint. |
| `Server.HeaderOnlyLedgerBreaksCheck` | server.py:184-185 | A header-only ledger gets a second header on the next booking. The check then fails parsing `"From"` whatever slot is requested. |
| `Server.LogApi` | server.py:228-232 | `/logs` logs the payload with an empty additional message, or raises when the call id is missing or the log sheet fails. |

## Left out

- HTTP routing, `await request.json()` and the response encoding (server.py:122-124, 194-196, 228-236) are framework glue. A request is its parsed `Payload` plus `RequestMeta`, and a reply is a `Response`.
- `send_email` (server.py:70-120) is reduced to its boolean outcome, the parameter `emailDelivered`. The SMTP exchange and the HTML template are not modelled. Its own `fromisoformat` at line 72 cannot fail, because line 205 has already parsed the same date.
- Credential loading and the gspread client (server.py:20-26) are not modelled. The worksheets are `Sheet` objects given to the handlers.
- The log sheet's `get_all_records` and `append_row` (server.py:62-64) are not inside a `try`. Their failure is the parameter `logAccepts`: the logger then raises and the handler gives no reply. For a booking, that happens after the email was sent and the ledger written (`LedgerAfter` does not depend on `logAccepts`).
- Store failures are all-or-nothing (`storeAccepts`, `logAccepts`). A failure between writing the header and writing the row is not modelled. The same holds for a `get_all_records` that raises in the availability check.
- `get_all_records` is modelled as "every row after the first". Blank rows and the dictionary view keyed by header names are not modelled: `From` and `To` are read from the first two columns.
- Timestamps are integer minutes. The seconds and microseconds that `fromisoformat` accepts, and that the comparison at server.py:147 takes into account, are dropped. A request ending at 10:00:30 overlaps `[10:00, 10:30)` in the source, and no whole minute expresses that. Time zones, naive versus aware datetimes, and the ISO text round trip at server.py:171-172 and 207-208 are not modelled. `strftime`, `utcnow` (the log time is the parameter `now`), `json.dumps` (the payload's `json` field), `logging` and `print` are not modelled either.
- A tool call is assumed to carry `id` and `function.name`. A malformed entry in `toolCalls` would raise in the search loop, and that is not modelled.
- Server.ParseBooking: the slot is `[date, date + 30)` for every integer `date`. The `OverflowError` that `from_time + timedelta(minutes=30)` raises at server.py:206, within 30 minutes of `datetime.max`, is not modelled, because timestamps are unbounded integers.
- Server.CheckAppointmentTime and Server.MakeAppointment require the ledger and the log sheet to be distinct objects. The workbook's first tab (`sheet1`) and the tab named `Sheet2` (server.py:25-26) are the same worksheet when the first tab is titled "Sheet2". That aliasing is not modelled.
- Concurrent requests and the check-then-book race between them are not modelled. The lemmas about bookings hold for one request at a time.
