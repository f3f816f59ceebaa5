/**
 * The webhook handlers: the availability check, the booking, and the request log they all
 * end with. Each handler reaches a verdict (the tool call it served and the reply text),
 * logs it, and answers with that tool call's id.
 */
module Server {
  import opened Wrappers
  import opened Sheets
  import opened Overlap
  import opened Requests
  import opened Availability

  const CheckToolName := "checkAppointmentTime"
  const MakeToolName := "makeAppointment"
  const AvailableMsg := "Appointment time slot is available"
  const UnavailableMsg := "No available time slot"
  const EmailSentMsg := "Email sent successfully!"
  const EmailFailedMsg := "Failed to send email."
  /** Every booking lasts thirty minutes. */
  const SlotMinutes := 30
  /** The status code the logger records, whatever the outcome. */
  const StatusCode := 200

  const AppointmentHeader: Row := [Text("From"), Text("To"), Text("Name"), Text("Email"), Text("Intent")]
  const LogHeader: Row := [Text("Timestamp"), Text("IP Address"), Text("Method"), Text("Path"),
    Text("Status Code"), Text("User-Agent"), Text("Call Id"), Text("Additional Msg"), Text("Data")]

  /** What the logger reads from the HTTP request: client host and user agent may be absent. */
  datatype RequestMeta = RequestMeta(client: Option<string>, userAgent: Option<string>, verb: string, path: string)

  /** The single entry of the reply's `results`. */
  datatype Response = Response(toolCallId: string, result: string)

  /** A handler's state when it logs: `tool_id` if it was bound, and the reply text. */
  datatype Verdict = Verdict(toolId: Option<string>, message: string)

  // ---------------------------------------------------------------- request log

  /** The row `log_request` appends, or the KeyError it raises when `message.call.id` is missing. */
  function LogEntry(meta: RequestMeta, data: Payload, additional: Option<string>, now: string): (r: Result<Row, Failure>)
    ensures r.Err? <==> data.message.None? || data.message.value.callId.None?
    ensures r.Err? ==> r.error == MissingCallId
    ensures r.Ok? ==> |r.value| == |LogHeader|
    ensures r.Ok? ==> r.value[0] == Text(now)
    ensures r.Ok? ==> r.value[1] == Text(if meta.client.Some? then meta.client.value else "Unknown")
    ensures r.Ok? ==> r.value[2] == Text(meta.verb) && r.value[3] == Text(meta.path)
    ensures r.Ok? ==> r.value[4] == Int(StatusCode)
    ensures r.Ok? ==> r.value[5] == Text(if meta.userAgent.Some? then meta.userAgent.value else "Unknown")
    ensures r.Ok? ==> r.value[6] == Text(data.message.value.callId.value)
    ensures r.Ok? ==> r.value[7] == Text(if additional.Some? then additional.value else "")
    ensures r.Ok? ==> r.value[8] == Text(data.json)
  {
    if data.message.None? || data.message.value.callId.None? then Err(MissingCallId)
    else
      Ok([Text(now),
          Text(if meta.client.Some? then meta.client.value else "Unknown"),
          Text(meta.verb),
          Text(meta.path),
          Int(StatusCode),
          Text(if meta.userAgent.Some? then meta.userAgent.value else "Unknown"),
          Text(data.message.value.callId.value),
          Text(if additional.Some? then additional.value else ""),
          Text(if data.IsEmpty() then "No data" else data.json)])
  }

  /**
   * What `log_request` ends in, given whether the log sheet's `get_all_records` and
   * `append_row` succeed: the row it appended, or the exception it raised.
   */
  function LogResult(meta: RequestMeta, data: Payload, additional: Option<string>, now: string, logAccepts: bool)
    : (r: Result<Row, Failure>)
    ensures r.Ok? <==> LogEntry(meta, data, additional, now).Ok? && logAccepts
    ensures r.Ok? ==> r == LogEntry(meta, data, additional, now)
    ensures LogEntry(meta, data, additional, now).Ok? && !logAccepts ==> r == Err(LogStoreFailure)
  {
    match LogEntry(meta, data, additional, now)
    case Err(f) => Err(f)
    case Ok(row) => if logAccepts then Ok(row) else Err(LogStoreFailure)
  }

  /** The log sheet after `log_request`: one more row on success, untouched when it raised. */
  function Logged(rows: seq<Row>, entry: Result<Row, Failure>): seq<Row>
  {
    if entry.Ok? then WithHeader(rows, LogHeader, entry.value) else rows
  }

  /** The request logger, bound to the log worksheet. */
  class Logger {
    const sheet: Sheet

    constructor (sheet: Sheet)
      ensures this.sheet == sheet
    {
      this.sheet := sheet;
    }

    /** `log_request`: build the row, append the header if the sheet has no records, append the row. */
    method LogRequest(meta: RequestMeta, data: Payload, additional: Option<string>, now: string, logAccepts: bool)
      returns (r: Result<Row, Failure>)
      modifies sheet
      ensures r == LogResult(meta, data, additional, now, logAccepts)
      ensures sheet.rows == Logged(old(sheet.rows), r)
    {
      r := LogEntry(meta, data, additional, now);
      if r.Err? {
        return;
      }
      if !logAccepts {
        return Err(LogStoreFailure);
      }
      if sheet.Records() == [] {
        sheet.AppendRow(LogHeader);
      }
      sheet.AppendRow(r.value);
    }
  }

  /** Logging the same request twice writes two rows: the log is append-only, with no deduplication. */
  lemma LogIsNotIdempotent(rows: seq<Row>, entry: Result<Row, Failure>)
    requires entry.Ok?
    ensures Logged(Logged(rows, entry), entry) == Logged(rows, entry) + [entry.value]
    ensures |Logged(Logged(rows, entry), entry)| >= |rows| + 2
  {
    assert |Logged(rows, entry)| >= 2 || rows == [];
  }

  // ---------------------------------------------------------------- replying

  /** The reply once the verdict is logged: the logger's exception, the unbound `tool_id`, or the result. */
  function Reply(verdict: Verdict, logged: Result<Row, Failure>): Result<Response, Failure>
  {
    if logged.Err? then Err(logged.error)
    else if verdict.toolId.None? then Err(UnboundToolId)
    else Ok(Response(verdict.toolId.value, verdict.message))
  }

  /** A handler's outcome: an exception before logging, or the reply after logging its verdict. */
  function Outcome(verdict: Result<Verdict, Failure>, meta: RequestMeta, data: Payload, now: string, logAccepts: bool)
    : Result<Response, Failure>
  {
    match verdict
    case Err(f) => Err(f)
    case Ok(v) => Reply(v, LogResult(meta, data, Some(v.message), now, logAccepts))
  }

  /** The log sheet after a handler: its verdict logged, or untouched when it raised first. */
  function LogAfter(rows: seq<Row>, verdict: Result<Verdict, Failure>, meta: RequestMeta, data: Payload, now: string,
                    logAccepts: bool): seq<Row>
  {
    match verdict
    case Err(_) => rows
    case Ok(v) => Logged(rows, LogResult(meta, data, Some(v.message), now, logAccepts))
  }

  /** The shared end of both handlers: log the verdict, then answer with the tool call's id. */
  method Finish(meta: RequestMeta, data: Payload, now: string, logAccepts: bool, verdict: Verdict, logger: Logger)
    returns (r: Result<Response, Failure>)
    modifies logger.sheet
    ensures r == Reply(verdict, LogResult(meta, data, Some(verdict.message), now, logAccepts))
    ensures logger.sheet.rows ==
      Logged(old(logger.sheet.rows), LogResult(meta, data, Some(verdict.message), now, logAccepts))
  {
    var logged := logger.LogRequest(meta, data, Some(verdict.message), now, logAccepts);
    if logged.Err? {
      return Err(logged.error);
    }
    if verdict.toolId.None? {
      return Err(UnboundToolId);
    }
    return Ok(Response(verdict.toolId.value, verdict.message));
  }

  /**
   * A handler answers only for the first tool call named `name`, with that call's id;
   * when no call has that name it raises, although the request was logged.
   */
  lemma ReplyNamesFirstMatch(calls: seq<ToolCall>, name: string, verdict: Verdict, logged: Result<Row, Failure>)
    requires verdict.toolId == (match FirstMatch(calls, name)
                                case None => None
                                case Some(i) => Some(calls[i].id))
    ensures Reply(verdict, logged).Ok? <==> logged.Ok? && exists k :: 0 <= k < |calls| && calls[k].name == name
    ensures Reply(verdict, logged).Ok? ==> exists i :: (0 <= i < |calls| && calls[i].name == name &&
      (forall k :: 0 <= k < i ==> calls[k].name != name) && Reply(verdict, logged).value.toolCallId == calls[i].id)
  {
    var m := FirstMatch(calls, name);
    if m.Some? {
      assert calls[m.value].name == name;
    }
  }

  // ---------------------------------------------------------------- availability check

  function AvailabilityMessage(available: bool): string
  {
    if available then AvailableMsg else UnavailableMsg
  }

  /** The requested slot from `arguments['from']` and `arguments['to']`, looked up, then parsed, in that order. */
  function RequestedInterval(call: ToolCall): (r: Result<Interval, Failure>)
    ensures r.Ok? <==> ("from" in call.arguments && "to" in call.arguments &&
      call.arguments["from"].Time? && call.arguments["to"].Time?)
    ensures r.Ok? ==> r.value == Interval(call.arguments["from"].t, call.arguments["to"].t)
  {
    match Argument(call, "from")
    case Err(f) => Err(f)
    case Ok(from) =>
      match Argument(call, "to")
      case Err(f) => Err(f)
      case Ok(to) =>
        match Timestamp(from, "from")
        case Err(f) => Err(f)
        case Ok(fromTime) =>
          match Timestamp(to, "to")
          case Err(f) => Err(f)
          case Ok(toTime) => Ok(Interval(fromTime, toTime))
  }

  /**
   * The availability check up to logging. `success` starts true, so when no tool call
   * matches the verdict is "available" with no tool id.
   */
  function CheckVerdict(data: Payload, records: seq<Row>): Result<Verdict, Failure>
  {
    match ToolCalls(data)
    case Err(f) => Err(f)
    case Ok(calls) =>
      match FirstMatch(calls, CheckToolName)
      case None => Ok(Verdict(None, AvailableMsg))
      case Some(i) =>
        match RequestedInterval(calls[i])
        case Err(f) => Err(f)
        case Ok(requested) =>
          match Scan(requested, records)
          case Err(f) => Err(f)
          case Ok(available) => Ok(Verdict(Some(calls[i].id), AvailabilityMessage(available)))
  }

  /** `POST /checkappointmenttime`. It reads the ledger and never writes it. */
  method CheckAppointmentTime(meta: RequestMeta, data: Payload, now: string, logAccepts: bool, ledger: Sheet,
                              logger: Logger)
    returns (r: Result<Response, Failure>)
    requires ledger != logger.sheet
    modifies logger.sheet
    ensures r == Outcome(CheckVerdict(data, old(ledger.Records())), meta, data, now, logAccepts)
    ensures logger.sheet.rows ==
      LogAfter(old(logger.sheet.rows), CheckVerdict(data, old(ledger.Records())), meta, data, now, logAccepts)
  {
    var calls := ToolCalls(data);
    if calls.Err? {
      return Err(calls.error);
    }
    var success := true;
    var toolId: Option<string> := None;
    var found := FindToolCall(calls.value, CheckToolName);
    if found.Some? {
      var call := calls.value[found.value];
      var requested := RequestedInterval(call);
      if requested.Err? {
        return Err(requested.error);
      }
      var scanned := ScanRecords(requested.value, ledger.Records());
      if scanned.Err? {
        return Err(scanned.error);
      }
      success := scanned.value;
      toolId := Some(call.id);
    }
    r := Finish(meta, data, now, logAccepts, Verdict(toolId, AvailabilityMessage(success)), logger);
  }

  /**
   * With a well-formed ledger the check answers for the first matching tool call, "available"
   * exactly when no stored appointment overlaps the requested slot.
   */
  lemma CheckAnswersAvailability(data: Payload, records: seq<Row>, i: nat, requested: Interval)
    requires ToolCalls(data).Ok? && FirstMatch(ToolCalls(data).value, CheckToolName) == Some(i)
    requires RequestedInterval(ToolCalls(data).value[i]) == Ok(requested)
    requires Intervals(records).Ok?
    ensures CheckVerdict(data, records) == Ok(Verdict(Some(ToolCalls(data).value[i].id),
      if Available(requested, Intervals(records).value) then AvailableMsg else UnavailableMsg))
  {
    ScanMeansAvailable(requested, records);
  }

  // ---------------------------------------------------------------- booking

  /** A parsed `makeAppointment` call: its id, the contact fields, and the booked slot. */
  datatype Booking = Booking(toolId: string, email: Value, name: Value, intent: Value, slot: Interval)

  /** `[date, date + 30 minutes)`. */
  function BookingSlot(date: int): (slot: Interval)
    ensures slot.from == date && slot.to - slot.from == SlotMinutes
  {
    Interval(date, date + SlotMinutes)
  }

  /** The arguments `email`, `name`, `date`, `intent` looked up in that order, then `date` parsed. */
  function ParseBooking(call: ToolCall): (r: Result<Booking, Failure>)
    ensures r.Ok? <==> ("email" in call.arguments && "name" in call.arguments && "date" in call.arguments &&
      "intent" in call.arguments && call.arguments["date"].Time?)
    ensures r.Ok? ==> r.value.slot == BookingSlot(call.arguments["date"].t)
    ensures r.Ok? ==> (r.value.toolId == call.id && r.value.email == call.arguments["email"] &&
      r.value.name == call.arguments["name"] && r.value.intent == call.arguments["intent"])
  {
    match Argument(call, "email")
    case Err(f) => Err(f)
    case Ok(email) =>
      match Argument(call, "name")
      case Err(f) => Err(f)
      case Ok(name) =>
        match Argument(call, "date")
        case Err(f) => Err(f)
        case Ok(date) =>
          match Argument(call, "intent")
          case Err(f) => Err(f)
          case Ok(intent) =>
            match Timestamp(date, "date")
            case Err(f) => Err(f)
            case Ok(d) => Ok(Booking(call.id, email, name, intent, BookingSlot(d)))
  }

  /** The booking the handler serves: none when no tool call matches. */
  function BookingRequest(data: Payload): Result<Option<Booking>, Failure>
  {
    match ToolCalls(data)
    case Err(f) => Err(f)
    case Ok(calls) =>
      match FirstMatch(calls, MakeToolName)
      case None => Ok(None)
      case Some(i) =>
        match ParseBooking(calls[i])
        case Err(f) => Err(f)
        case Ok(b) => Ok(Some(b))
  }

  /** The ledger row: `[From, To, Name, Email, Intent]`, in header order. */
  function AppointmentRow(b: Booking): Row
  {
    [Time(b.slot.from), Time(b.slot.to), b.name, b.email, b.intent]
  }

  /** `success` ends true only when the email and the ledger write both succeeded. */
  function BookingMessage(success: bool): string
  {
    if success then EmailSentMsg else EmailFailedMsg
  }

  /** The booking up to logging, given whether the mail relay and the spreadsheet accept their calls. */
  function MakeVerdict(data: Payload, emailDelivered: bool, storeAccepts: bool): Result<Verdict, Failure>
  {
    match BookingRequest(data)
    case Err(f) => Err(f)
    case Ok(None) => Ok(Verdict(None, EmailFailedMsg))
    case Ok(Some(b)) => Ok(Verdict(Some(b.toolId), BookingMessage(emailDelivered && storeAccepts)))
  }

  /** The ledger after the booking: the row appended only when the email went out and the store accepted it. */
  function LedgerAfter(rows: seq<Row>, data: Payload, emailDelivered: bool, storeAccepts: bool): seq<Row>
  {
    match BookingRequest(data)
    case Ok(Some(b)) =>
      if emailDelivered && storeAccepts then WithHeader(rows, AppointmentHeader, AppointmentRow(b)) else rows
    case _ => rows
  }

  /**
   * `write_appointment_to_sheet`: both times are re-parsed and the row is appended under a
   * lazy header; any exception inside (a bad time, the store refusing) returns false.
   */
  method WriteAppointmentToSheet(requestedFrom: Value, requestedTo: Value, name: Value, email: Value,
                                 intent: Value, sheet: Sheet, storeAccepts: bool)
    returns (ok: bool)
    modifies sheet
    ensures ok == (requestedFrom.Time? && requestedTo.Time? && storeAccepts)
    ensures sheet.rows == if ok then WithHeader(old(sheet.rows), AppointmentHeader,
      [requestedFrom, requestedTo, name, email, intent]) else old(sheet.rows)
  {
    if !requestedFrom.Time? || !requestedTo.Time? || !storeAccepts {
      return false;
    }
    var row := [Time(requestedFrom.t), Time(requestedTo.t), name, email, intent];
    if sheet.Records() == [] {
      sheet.AppendRow(AppointmentHeader);
    }
    sheet.AppendRow(row);
    return true;
  }

  /**
   * `POST /makeappoint`. The email is sent first and the ledger written only if it went out;
   * existing appointments are never consulted.
   */
  method MakeAppointment(meta: RequestMeta, data: Payload, now: string, emailDelivered: bool, storeAccepts: bool,
                         logAccepts: bool, ledger: Sheet, logger: Logger)
    returns (r: Result<Response, Failure>)
    requires ledger != logger.sheet
    modifies ledger, logger.sheet
    ensures ledger.rows == LedgerAfter(old(ledger.rows), data, emailDelivered, storeAccepts)
    ensures r == Outcome(MakeVerdict(data, emailDelivered, storeAccepts), meta, data, now, logAccepts)
    ensures logger.sheet.rows ==
      LogAfter(old(logger.sheet.rows), MakeVerdict(data, emailDelivered, storeAccepts), meta, data, now, logAccepts)
  {
    var calls := ToolCalls(data);
    if calls.Err? {
      return Err(calls.error);
    }
    var success := false;
    var toolId: Option<string> := None;
    var found := FindToolCall(calls.value, MakeToolName);
    if found.Some? {
      var call := calls.value[found.value];
      var booking := ParseBooking(call);
      if booking.Err? {
        return Err(booking.error);
      }
      var b := booking.value;
      success := emailDelivered;
      if success {
        success := WriteAppointmentToSheet(Time(b.slot.from), Time(b.slot.to), b.name, b.email, b.intent,
                                           ledger, storeAccepts);
      }
      toolId := Some(call.id);
    }
    r := Finish(meta, data, now, logAccepts, Verdict(toolId, BookingMessage(success)), logger);
  }

  /**
   * The reply says the email was sent exactly when the email and the ledger write both
   * succeeded, and the ledger changes exactly then, by the appointment row under a lazy header.
   */
  lemma BookingOutcome(rows: seq<Row>, data: Payload, b: Booking, emailDelivered: bool, storeAccepts: bool)
    requires BookingRequest(data) == Ok(Some(b))
    ensures MakeVerdict(data, emailDelivered, storeAccepts).Ok?
    ensures MakeVerdict(data, emailDelivered, storeAccepts).value.message == EmailSentMsg <==> emailDelivered && storeAccepts
    ensures LedgerAfter(rows, data, emailDelivered, storeAccepts) != rows <==> emailDelivered && storeAccepts
    ensures emailDelivered && storeAccepts ==>
      LedgerAfter(rows, data, emailDelivered, storeAccepts) == WithHeader(rows, AppointmentHeader, AppointmentRow(b))
  {
  }

  /** A failed email means no ledger write, whatever the store would have done. */
  lemma NoEmailNoWrite(rows: seq<Row>, data: Payload, storeAccepts: bool)
    ensures LedgerAfter(rows, data, false, storeAccepts) == rows
  {
  }

  /** The row written for a booking reads back, through the check's parser, as the booked slot. */
  lemma AppointmentRowReadsBack(b: Booking)
    ensures RecordInterval(AppointmentRow(b)) == Ok(b.slot)
  {
  }

  /** A booking on a well-formed ledger appends its row, and its slot to the ledger's intervals. */
  lemma BookedLedger(data: Payload, b: Booking, stored: seq<Row>)
    requires BookingRequest(data) == Ok(Some(b))
    requires Intervals(stored).Ok?
    ensures LedgerAfter(Table(AppointmentHeader, stored), data, true, true) ==
      Table(AppointmentHeader, stored + [AppointmentRow(b)])
    ensures Intervals(RecordsOf(LedgerAfter(Table(AppointmentHeader, stored), data, true, true))) ==
      Ok(Intervals(stored).value + [b.slot])
  {
    var row := AppointmentRow(b);
    BookingOutcome(Table(AppointmentHeader, stored), data, b, true, true);
    TableAppend(AppointmentHeader, stored, row);
    TableRecords(AppointmentHeader, stored + [row]);
    AppointmentRowReadsBack(b);
    IntervalsAppend(stored, Intervals(stored).value, row, b.slot);
  }

  /**
   * Booking does not check the ledger: on a well-formed ledger whose appointments overlap the
   * new slot, the booking still succeeds and the ledger then holds two overlapping appointments.
   */
  lemma BookingAllowsDoubleBooking(data: Payload, b: Booking, stored: seq<Row>)
    requires BookingRequest(data) == Ok(Some(b))
    requires Intervals(stored).Ok? && !Available(b.slot, Intervals(stored).value)
    ensures var after := LedgerAfter(Table(AppointmentHeader, stored), data, true, true);
      after == Table(AppointmentHeader, stored + [AppointmentRow(b)]) &&
      Intervals(RecordsOf(after)) == Ok(Intervals(stored).value + [b.slot]) &&
      !Disjoint(Intervals(RecordsOf(after)).value)
  {
    BookedLedger(data, b, stored);
    UncheckedBookingBreaksDisjoint(Intervals(stored).value, b.slot);
  }

  /**
   * Checking the slot first and booking it only when the check said available keeps a
   * disjoint ledger disjoint (for a single request at a time).
   */
  lemma CheckThenBookKeepsDisjoint(data: Payload, b: Booking, stored: seq<Row>)
    requires BookingRequest(data) == Ok(Some(b))
    requires Scan(b.slot, stored) == Ok(true)
    requires Intervals(stored).Ok? && Disjoint(Intervals(stored).value)
    ensures var after := LedgerAfter(Table(AppointmentHeader, stored), data, true, true);
      Intervals(RecordsOf(after)) == Ok(Intervals(stored).value + [b.slot]) &&
      Disjoint(Intervals(RecordsOf(after)).value)
  {
    ScanMeansAvailable(b.slot, stored);
    BookedLedger(data, b, stored);
    CheckedBookingKeepsDisjoint(Intervals(stored).value, b.slot);
  }

  /**
   * A ledger holding only its header row has no records, so a booking appends a second
   * header; every later availability check then fails to parse that header's "From".
   */
  lemma HeaderOnlyLedgerBreaksCheck(data: Payload, b: Booking, requested: Interval)
    requires BookingRequest(data) == Ok(Some(b))
    ensures var after := LedgerAfter([AppointmentHeader], data, true, true);
      after == [AppointmentHeader, AppointmentHeader, AppointmentRow(b)] &&
      Scan(requested, RecordsOf(after)) == Err(BadTimestamp("From"))
  {
    WithHeaderRecords([AppointmentHeader], AppointmentHeader, AppointmentRow(b));
  }

  /** The availability check replies only for the first `checkAppointmentTime` call, with its id. */
  lemma CheckReplyNamesFirstMatch(data: Payload, records: seq<Row>, meta: RequestMeta, now: string, logAccepts: bool)
    requires Outcome(CheckVerdict(data, records), meta, data, now, logAccepts).Ok?
    ensures ToolCalls(data).Ok? && FirstMatch(ToolCalls(data).value, CheckToolName).Some?
    ensures Outcome(CheckVerdict(data, records), meta, data, now, logAccepts).value.toolCallId ==
      ToolCalls(data).value[FirstMatch(ToolCalls(data).value, CheckToolName).value].id
  {
  }

  /** The booking replies only for the first `makeAppointment` call, with its id. */
  lemma MakeReplyNamesFirstMatch(data: Payload, emailDelivered: bool, storeAccepts: bool, meta: RequestMeta,
                                 now: string, logAccepts: bool)
    requires Outcome(MakeVerdict(data, emailDelivered, storeAccepts), meta, data, now, logAccepts).Ok?
    ensures ToolCalls(data).Ok? && FirstMatch(ToolCalls(data).value, MakeToolName).Some?
    ensures Outcome(MakeVerdict(data, emailDelivered, storeAccepts), meta, data, now, logAccepts).value.toolCallId ==
      ToolCalls(data).value[FirstMatch(ToolCalls(data).value, MakeToolName).value].id
  {
  }

  // ---------------------------------------------------------------- log endpoint

  /** `POST /logs`: log the payload with an empty additional message. */
  method LogApi(meta: RequestMeta, data: Payload, now: string, logAccepts: bool, logger: Logger)
    returns (r: Result<Row, Failure>)
    modifies logger.sheet
    ensures r == LogResult(meta, data, Some(""), now, logAccepts)
    ensures logger.sheet.rows == Logged(old(logger.sheet.rows), r)
  {
    r := logger.LogRequest(meta, data, Some(""), now, logAccepts);
  }
}
