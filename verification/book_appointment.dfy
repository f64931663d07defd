/** The appointment-booking webhook (`src/app/api/vapi/book-appointment/route.ts`):
    the provider posts a tool call; the handler logs the whole payload,
    checks that the first tool call books an appointment with a date, name,
    time and email, creates the appointment and answers that the request is
    complete. Any failure is logged as `vapi_error` and answered with 500.
    The payload is the parsed body; the appointment and log tables are
    modelled here, as the rest of the database plays no part. */
module BookAppointment {
  import opened Wrappers

  type Id = nat

  /** The arguments of the tool call; any of them may be missing. */
  datatype BookingArgs = BookingArgs(date: Option<string>, name: Option<string>, time: Option<string>,
                                     email: Option<string>)

  datatype ToolFunction = ToolFunction(name: string, arguments: Option<BookingArgs>)

  /** One entry of `message.tool_calls`. */
  datatype ToolCall = ToolCall(id: Option<string>, toolType: Option<string>, fn: Option<ToolFunction>)

  /** `message.call`, of which only the id is read. */
  datatype CallRef = CallRef(id: Option<string>)

  /** The parts of `message` the handler reads. The route reads the list as
      `tool_calls`. */
  datatype Message = Message(messageType: Option<string>, call: Option<CallRef>, toolCalls: Option<seq<ToolCall>>)

  datatype Payload = Payload(message: Option<Message>)

  datatype Appointment = Appointment(id: Id, name: string, email: string, date: string, time: string,
                                     vapiCallId: Option<string>, toolCallId: Option<string>)

  /** Why the handler failed: one of its own two errors, or a property read
      on a missing value, whose text the JavaScript engine writes. */
  datatype Failure = InvalidToolCall | MissingFields | MissingValue

  /** The rows of the log table the handler writes. */
  datatype LogEntry =
    | FullLog(payload: Payload, vapiCallId: Option<string>)
    | AppointmentCreated(appointmentId: Id, name: string, email: string, date: string, time: string)
    | ErrorLog(failure: Failure)

  datatype Journal = Journal(logs: seq<LogEntry>, appointments: seq<Appointment>, nextId: Id)

  /** The answers: `request-complete`, the logged-request answer carrying the
      first tool call's id, or the 500. */
  datatype Reply = RequestComplete | RequestLogged(toolCallId: Option<string>) | ServerError

  datatype Handled = Handled(journal: Journal, reply: Reply)

  const ToolCallsType: string := "tool-calls"
  const FunctionType: string := "function"
  const BookAppointmentName: string := "bookAppointment"

  /** The message text logged with a failure the handler raises itself. */
  function FailureMessage(f: Failure): Option<string> {
    match f
    case InvalidToolCall => Some("Invalid tool call data")
    case MissingFields => Some("Missing required appointment fields")
    case MissingValue => None
  }

  /** `toolCall?.type !== 'function' || toolCall.function.name !== 'bookAppointment'`
      on the first tool call: `Ok` with the call and its function when it
      books, the failure it raises otherwise. */
  function FirstBooking(m: Message): (r: Result<(ToolCall, ToolFunction), Failure>)
    ensures r.Ok? ==> && m.toolCalls.Some? && |m.toolCalls.value| > 0
                      && r.value.0 == m.toolCalls.value[0]
                      && r.value.0.toolType == Some(FunctionType)
                      && r.value.0.fn == Some(r.value.1)
                      && r.value.1.name == BookAppointmentName
  {
    if m.toolCalls.None? || |m.toolCalls.value| == 0 then Err(InvalidToolCall)
    else
      var tc := m.toolCalls.value[0];
      if tc.toolType != Some(FunctionType) then Err(InvalidToolCall)
      else if tc.fn.None? then Err(MissingValue)
      else if tc.fn.value.name != BookAppointmentName then Err(InvalidToolCall)
      else Ok((tc, tc.fn.value))
  }

  /** The catch-all: log the failure, answer 500. */
  function Fail(j: Journal, f: Failure): Handled {
    Handled(j.(logs := j.logs + [ErrorLog(f)]), ServerError)
  }

  /** `POST`. A payload without `message` or `message.call` fails before
      anything is logged, since the full log reads `message.call.id`. */
  function HandleToolCall(j: Journal, p: Payload): (r: Handled)
    ensures |r.journal.logs| > |j.logs| && r.journal.logs[..|j.logs|] == j.logs
    ensures |r.journal.appointments| >= |j.appointments| && r.journal.appointments[..|j.appointments|] == j.appointments
    ensures r.reply.RequestComplete? ==> |r.journal.appointments| == |j.appointments| + 1
    ensures !r.reply.RequestComplete? ==> r.journal.appointments == j.appointments
    ensures r.reply.ServerError? <==> r.journal.logs[|r.journal.logs| - 1].ErrorLog?
  {
    if p.message.None? || p.message.value.call.None? then Fail(j, MissingValue)
    else
      var m := p.message.value;
      var logged := j.(logs := j.logs + [FullLog(p, m.call.value.id)]);
      if m.messageType == Some(ToolCallsType) then
        match FirstBooking(m)
        case Err(f) => Fail(logged, f)
        case Ok((tc, fn)) =>
          if fn.arguments.None? then Fail(logged, MissingValue)
          else
            var args := fn.arguments.value;
            if !TruthyStr(args.date) || !TruthyStr(args.name) || !TruthyStr(args.time) || !TruthyStr(args.email) then
              Fail(logged, MissingFields)
            else
              var a := Appointment(logged.nextId, args.name.value, args.email.value, args.date.value, args.time.value,
                                   m.call.value.id, tc.id);
              var created := AppointmentCreated(a.id, a.name, a.email, a.date, a.time);
              Handled(Journal(logged.logs + [created], logged.appointments + [a], logged.nextId + 1), RequestComplete)
      else if m.toolCalls.None? || |m.toolCalls.value| == 0 then Fail(logged, MissingValue)
      else Handled(logged, RequestLogged(m.toolCalls.value[0].id))
  }

  /** A payload that books: a tool-call message with a call, whose first tool
      call is the `bookAppointment` function with all four fields filled. */
  predicate Books(p: Payload) {
    && p.message.Some? && p.message.value.call.Some?
    && p.message.value.messageType == Some(ToolCallsType)
    && var calls := p.message.value.toolCalls;
    && calls.Some? && |calls.value| > 0
    && calls.value[0].toolType == Some(FunctionType)
    && calls.value[0].fn.Some?
    && calls.value[0].fn.value.name == BookAppointmentName
    && var args := calls.value[0].fn.value.arguments;
    && args.Some?
    && TruthyStr(args.value.date) && TruthyStr(args.value.name)
    && TruthyStr(args.value.time) && TruthyStr(args.value.email)
  }

  /** An appointment is created exactly for a booking payload; it carries
      the call's id, the tool call's id and the four fields, and the reply
      says the request is complete. */
  lemma BookingCreatesAppointment(j: Journal, p: Payload)
    ensures var r := HandleToolCall(j, p);
            r.reply.RequestComplete? <==> Books(p)
    ensures var r := HandleToolCall(j, p);
            Books(p) ==>
              var tc := p.message.value.toolCalls.value[0];
              var args := tc.fn.value.arguments.value;
              && |r.journal.appointments| == |j.appointments| + 1
              && r.journal.appointments[|j.appointments|]
                   == Appointment(j.nextId, args.name.value, args.email.value, args.date.value, args.time.value,
                                  p.message.value.call.value.id, tc.id)
  {
  }

  /** The payload is logged before it is checked: whenever it names a call,
      the first row written is the full log with the call's id. */
  lemma PayloadLoggedFirst(j: Journal, p: Payload)
    requires p.message.Some? && p.message.value.call.Some?
    ensures HandleToolCall(j, p).journal.logs[|j.logs|] == FullLog(p, p.message.value.call.value.id)
  {
  }

  /** A message that is not a tool call never books; it is answered with the
      first tool call's id, or fails when there is none. */
  lemma OtherMessagesNeverBook(j: Journal, p: Payload)
    requires p.message.Some? && p.message.value.messageType != Some(ToolCallsType)
    ensures HandleToolCall(j, p).journal.appointments == j.appointments
    ensures var calls := p.message.value.toolCalls;
            p.message.value.call.Some? && calls.Some? && |calls.value| > 0 ==>
              HandleToolCall(j, p).reply == RequestLogged(calls.value[0].id)
    ensures var calls := p.message.value.toolCalls;
            calls.None? || |calls.value| == 0 ==>
              HandleToolCall(j, p).reply == ServerError
  {
  }

  /** Every failure ends in one `vapi_error` row and a 500, with no
      appointment; a tool call that is not a booking, or a booking missing a
      field, fails with the handler's own message. */
  lemma FailuresLogged(j: Journal, p: Payload)
    requires p.message.Some? && p.message.value.call.Some?
    requires p.message.value.messageType == Some(ToolCallsType)
    ensures var r := HandleToolCall(j, p);
            r.reply.ServerError? ==>
              && r.journal.appointments == j.appointments
              && |r.journal.logs| == |j.logs| + 2
              && r.journal.logs[|j.logs| + 1].ErrorLog?
    ensures var calls := p.message.value.toolCalls;
            calls.None? || |calls.value| == 0 || calls.value[0].toolType != Some(FunctionType) ==>
              HandleToolCall(j, p).journal.logs[|j.logs| + 1] == ErrorLog(InvalidToolCall)
    ensures var calls := p.message.value.toolCalls;
            (&& calls.Some? && |calls.value| > 0 && calls.value[0].toolType == Some(FunctionType)
             && calls.value[0].fn.Some? && calls.value[0].fn.value.name == BookAppointmentName
             && calls.value[0].fn.value.arguments.Some?
             && !TruthyStr(calls.value[0].fn.value.arguments.value.email)) ==>
              HandleToolCall(j, p).journal.logs[|j.logs| + 1] == ErrorLog(MissingFields)
  {
  }
}
