/** The booking endpoint (src/app/api/book-session/route.ts): a POST whose
    JSON body names a client, checked for the required fields and stored as
    a pending booking; the reply carries the new booking's id or an error. */
module BookSession {
  import opened Common

  const MissingFields := "Missing required fields"
  const UnknownError := "Unknown error"

  /** The parsed body; a field the client left out is `None`. */
  datatype BookingRequest = BookingRequest(name: Option<string>, email: Option<string>,
                                           phone: Option<string>, message: Option<string>)

  /** The document written to the "bookings" collection. */
  datatype Booking = Booking(name: string, email: string, phone: string, message: string,
                             status: string, createdAt: nat)

  datatype ResponseBody = Created(bookingId: string) | Failed(error: string)

  /** The JSON reply: `success` is true exactly for `Created`. */
  datatype Response = Response(status: nat, body: ResponseBody)

  predicate HasRequiredFields(req: BookingRequest)
  {
    Truthy(req.name) && Truthy(req.email) && Truthy(req.phone)
  }

  /** The document for a request with all required fields: the fields as
      sent (not trimmed), an empty message when none was sent, and status
      "pending". */
  function BookingRecord(req: BookingRequest, createdAt: nat): (b: Booking)
    requires HasRequiredFields(req)
    ensures b.name == req.name.value && b.email == req.email.value && b.phone == req.phone.value
    ensures b.message == Or(req.message, "")
    ensures b.status == "pending" && b.createdAt == createdAt
  {
    Booking(req.name.value, req.email.value, req.phone.value, Or(req.message, ""), "pending", createdAt)
  }

  /** The reply for a caught value. */
  function ErrorResponse(t: Thrown): (r: Response)
    ensures r.status == 500 && r.body.Failed?
    ensures t.ErrorInstance? ==> r.body.error == t.message
    ensures t.OtherValue? ==> r.body.error == UnknownError
  {
    Response(500, Failed(MessageOf(t, UnknownError)))
  }

  /** The handler. `body` is the outcome of parsing the request's JSON,
      `createdAt` the server time, and `insert` the outcome of adding the
      document (the new id, or what it threw). The second result is the
      document handed to the store, if the handler got that far. */
  function Post(body: Attempt<BookingRequest>, createdAt: nat, insert: Attempt<string>)
    : (out: (Response, Option<Booking>))
    ensures out.0.status in {200, 400, 500}
    ensures out.0.body.Created? <==> out.0.status == 200
    ensures out.0.status == 200 <==> body.Returned? && HasRequiredFields(body.value) && insert.Returned?
    ensures out.0.status == 200 ==> out.0.body.bookingId == insert.value
    ensures out.1.Some? <==> body.Returned? && HasRequiredFields(body.value)
    ensures out.1.Some? ==> out.1.value == BookingRecord(body.value, createdAt)
  {
    match body
    case Threw(t) => (ErrorResponse(t), None)
    case Returned(req) =>
      if !HasRequiredFields(req) then (Response(400, Failed(MissingFields)), None)
      else
        var record := BookingRecord(req, createdAt);
        match insert
        case Threw(t) => (ErrorResponse(t), Some(record))
        case Returned(id) => (Response(200, Created(id)), Some(record))
  }

  /** A body that parses but lacks a name, an email or a phone (or has an
      empty one) is refused with 400 before anything is stored. */
  lemma MissingFieldRejected(req: BookingRequest, createdAt: nat, insert: Attempt<string>)
    requires !Truthy(req.name) || !Truthy(req.email) || !Truthy(req.phone)
    ensures Post(Returned(req), createdAt, insert) == (Response(400, Failed(MissingFields)), None)
  {
  }

  /** The reply is 200 exactly when the body parsed, the required fields
      are there and the store returned an id; it then carries that id and
      the stored document is the request's record. */
  lemma SuccessIff(body: Attempt<BookingRequest>, createdAt: nat, insert: Attempt<string>)
    ensures var (resp, stored) := Post(body, createdAt, insert);
      && (resp.status == 200 <==> body.Returned? && HasRequiredFields(body.value) && insert.Returned?)
      && (resp.status == 200 ==>
            resp.body == Created(insert.value) && stored == Some(BookingRecord(body.value, createdAt)))
  {
  }

  /** The reply's status is one of 200, 400 and 500, and the body is
      `Created` exactly for 200. */
  lemma StatusCodes(body: Attempt<BookingRequest>, createdAt: nat, insert: Attempt<string>)
    ensures var resp := Post(body, createdAt, insert).0;
      && resp.status in {200, 400, 500}
      && (resp.body.Created? <==> resp.status == 200)
  {
  }

  /** Anything thrown while parsing or storing gives 500 with the Error's
      message, or "Unknown error" for a value that is not an Error. */
  lemma ThrownGives500(body: Attempt<BookingRequest>, createdAt: nat, insert: Attempt<string>)
    requires body.Threw? || (HasRequiredFields(body.value) && insert.Threw?)
    ensures var t := if body.Threw? then body.thrown else insert.thrown;
      Post(body, createdAt, insert).0 == Response(500, Failed(MessageOf(t, UnknownError)))
  {
  }

  /** Fields are only tested for emptiness, not trimmed: a name made of
      spaces is accepted and stored as sent. */
  lemma WhitespaceNameAccepted(createdAt: nat, id: string)
    ensures var req := BookingRequest(Some(" "), Some("a@b.c"), Some("0700"), None);
      Post(Returned(req), createdAt, Returned(id))
        == (Response(200, Created(id)), Some(Booking(" ", "a@b.c", "0700", "", "pending", createdAt)))
  {
  }
}
