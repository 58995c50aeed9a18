/** BookingRESTService: the HTTP boundary of local bookings. Validation
    messages are turned into field keys by their prefix; every other
    exception becomes 400 keyed "error". A NullPointerException raised
    outside the try blocks is not caught and reaches the container as 500. */
module BookingRest {
  import opened Common
  import opened Bookings
  import opened BookingValidation
  import opened BookingStore

  const DATE_HOTEL_CONFLICT := "That Hotel and Date combination is already used, please use a unique combination"
  const HOTEL_CONFLICT := "That Hotel ID provided does not match a corresponding record in the Hotel database"
  const CUSTOMER_CONFLICT := "That Customer ID provided does not match a corresponding record in the Customer database"
  const ID_CHANGE_MESSAGE := "The booking ID cannot be modified"

  /** The 409 body for a ValidationException: one entry chosen by the
      message's prefix, tested in this order, or no entry at all. */
  function ConflictFields(message: string): (r: map<string, string>)
    ensures StartsWith(message, "Date/Hotel") ==> r == map["hotelId/bookingDate" := DATE_HOTEL_CONFLICT]
    ensures !StartsWith(message, "Date/Hotel") && StartsWith(message, "Hotel ID") ==> r == map["hotelId" := HOTEL_CONFLICT]
    ensures !StartsWith(message, "Date/Hotel") && !StartsWith(message, "Hotel ID") && StartsWith(message, "Customer ID") ==>
      r == map["customerId" := CUSTOMER_CONFLICT]
    ensures r == map[] <==> !StartsWith(message, "Date/Hotel") && !StartsWith(message, "Hotel ID") && !StartsWith(message, "Customer ID")
    ensures |r| <= 1
  {
    if StartsWith(message, "Date/Hotel") then map["hotelId/bookingDate" := DATE_HOTEL_CONFLICT]
    else if StartsWith(message, "Hotel ID") then map["hotelId" := HOTEL_CONFLICT]
    else if StartsWith(message, "Customer ID") then map["customerId" := CUSTOMER_CONFLICT]
    else map[]
  }

  /** Each message the validator raises lands on exactly one key: its own. */
  lemma ValidatorMessagesKeyed()
    ensures ConflictFields(DATE_HOTEL_MESSAGE) == map["hotelId/bookingDate" := DATE_HOTEL_CONFLICT]
    ensures ConflictFields(CUSTOMER_MESSAGE) == map["customerId" := CUSTOMER_CONFLICT]
    ensures ConflictFields(HOTEL_MESSAGE) == map["hotelId" := HOTEL_CONFLICT]
  {
    assert DATE_HOTEL_MESSAGE[..10] == "Date/Hotel";
    assert CUSTOMER_MESSAGE[0] == 'C';
    assert CUSTOMER_MESSAGE[..10][0] != "Date/Hotel"[0] && CUSTOMER_MESSAGE[..8][0] != "Hotel ID"[0];
    assert CUSTOMER_MESSAGE[..11] == "Customer ID";
    assert HOTEL_MESSAGE[..10][0] != "Date/Hotel"[0] && HOTEL_MESSAGE[..8] == "Hotel ID";
  }

  /** The catch clauses shared by createBooking and updateBooking, with the
      status of a successful call. */
  function OutcomeResponse(success: int, outcome: Result<Booking>): (r: Response<Booking>)
    ensures outcome.Ok? ==> r == Response(success, Body(outcome.value))
    ensures outcome.Err? && outcome.error.ConstraintViolation? ==>
      r.status == BAD_REQUEST && r.entity.Fields? && r.entity.fields.Keys == Paths(outcome.error.violations)
    ensures outcome.Err? && outcome.error.Validation? ==>
      r == Response(CONFLICT, Fields(ConflictFields(outcome.error.message)))
    ensures outcome.Err? && (outcome.error.Other? || outcome.error.WebApplication?) ==>
      r == Response(BAD_REQUEST, Fields(map["error" := Message(outcome.error)]))
  {
    match outcome
    case Ok(v) => Response(success, Body(v))
    case Err(e) =>
      match e
      case ConstraintViolation(vs) =>
        ViolationFieldsKeys(vs);
        Response(BAD_REQUEST, Fields(ViolationFields(vs)))
      case Validation(m) => Response(CONFLICT, Fields(ConflictFields(m)))
      case _ => Response(BAD_REQUEST, Fields(map["error" := Message(e)]))
  }

  /** A booking dated today or earlier is answered 400 with the @Future
      message under "bookingDate". */
  lemma PastDateIsBadRequest<C, H>(b: Booking, bookings: map<int, Booking>, customers: map<int, C>,
                                  hotels: map<int, H>, today: Date, success: int)
    requires b.bookingDate.Some? && b.bookingDate.value <= today
    ensures var r := OutcomeResponse(success, Err(ValidateBooking(b, bookings, customers, hotels, today).error));
      r == Response(BAD_REQUEST, Fields(map["bookingDate" := FUTURE_MESSAGE]))
  {
    var vs := BookingViolations(b, today);
    assert vs[..0] == [];
    assert ViolationFields(vs) == ViolationFields(vs[..0])[vs[0].path := vs[0].message];
  }

  /** Every way validation can fail once the fields are valid is a 409
      whose body holds exactly one key. */
  lemma {:induction false} ValidationConflictsHaveOneKey<C, H>(b: Booking, bookings: map<int, Booking>, customers: map<int, C>,
                                                              hotels: map<int, H>, today: Date, success: int)
    requires ValidateBooking(b, bookings, customers, hotels, today).Fail?
    requires ValidateBooking(b, bookings, customers, hotels, today).error.Validation?
    ensures var r := OutcomeResponse(success, Err(ValidateBooking(b, bookings, customers, hotels, today).error));
      r.status == CONFLICT && r.entity.Fields? && |r.entity.fields| == 1
  {
    ValidatorMessagesKeyed();
  }

  class BookingRESTService {
    const service: BookingService

    constructor (service: BookingService)
      ensures this.service == service
    {
      this.service := service;
    }

    /** createBooking: the first log line reads the booking's customer and
        hotel ids before the null check, so a missing body or reference is a
        500; otherwise the service's create, translated by OutcomeResponse
        with 201 for success. */
    method CreateBooking(body: Option<Booking>, today: Date) returns (r: Response<Booking>)
      requires service.Valid()
      modifies service
      ensures service.Valid()
      ensures body.None? || body.value.customerId.None? || body.value.hotelId.None? ==>
        r == Response(INTERNAL_SERVER_ERROR, NoEntity) && service.bookings == old(service.bookings)
      ensures body.Some? && body.value.customerId.Some? && body.value.hotelId.Some? ==>
        var v := old(service.Check(body.value, today));
        (v.Fail? ==> r == OutcomeResponse(CREATED, Err(v.error)) && service.bookings == old(service.bookings)) &&
        (v.Pass? && body.value.id.Some? ==>
          r == OutcomeResponse(CREATED, Err(Other(DETACHED_MESSAGE))) && service.bookings == old(service.bookings)) &&
        (v.Pass? && body.value.id.None? ==>
          r == Response(CREATED, Body(body.value.(id := Some(old(service.nextId))))) &&
          service.bookings == old(service.bookings)[old(service.nextId) := body.value.(id := Some(old(service.nextId)))])
    {
      if body.None? || body.value.customerId.None? || body.value.hotelId.None? {
        r := Response(INTERNAL_SERVER_ERROR, NoEntity);
        return;
      }
      var created := service.Create(body.value, today);
      r := OutcomeResponse(CREATED, created);
    }

    /** updateBooking: a missing body is a 400; the log line's dereferences
        and the unboxing of a null id are 500s; a body id other than the path
        id is a 409; an unknown id is a 404; all of these are raised before
        any write. Otherwise the service's update, translated by
        OutcomeResponse with 200 for success. */
    method UpdateBooking(id: int, body: Option<Booking>, today: Date) returns (r: Response<Booking>)
      requires service.Valid()
      modifies service
      ensures service.Valid()
      ensures body.None? ==> r == Response(BAD_REQUEST, NoEntity) && service.bookings == old(service.bookings)
      ensures body.Some? && (body.value.customerId.None? || body.value.hotelId.None? || body.value.id.None?) ==>
        r == Response(INTERNAL_SERVER_ERROR, NoEntity) && service.bookings == old(service.bookings)
      ensures body.Some? && body.value.customerId.Some? && body.value.hotelId.Some? && body.value.id.Some? &&
              body.value.id.value != id ==>
        r == Response(CONFLICT, Text(ID_CHANGE_MESSAGE)) && service.bookings == old(service.bookings)
      ensures body.Some? && body.value.customerId.Some? && body.value.hotelId.Some? && body.value.id == Some(id) &&
              id !in old(service.bookings) ==>
        r == Response(NOT_FOUND, NoEntity) && service.bookings == old(service.bookings)
      ensures body.Some? && body.value.customerId.Some? && body.value.hotelId.Some? && body.value.id == Some(id) &&
              id in old(service.bookings) ==>
        var v := old(service.Check(body.value, today));
        (v.Fail? ==> r == OutcomeResponse(OK, Err(v.error)) && service.bookings == old(service.bookings)) &&
        (v.Pass? ==> r == Response(OK, Body(body.value)) && service.bookings == old(service.bookings)[id := body.value])
    {
      if body.None? {
        r := Response(BAD_REQUEST, NoEntity);
        return;
      }
      var b := body.value;
      if b.customerId.None? || b.hotelId.None? || b.id.None? {
        r := Response(INTERNAL_SERVER_ERROR, NoEntity);
        return;
      }
      if b.id.value != id {
        r := Response(CONFLICT, Text(ID_CHANGE_MESSAGE));
        return;
      }
      var found := service.FindById(id);
      if found.None? {
        r := Response(NOT_FOUND, NoEntity);
        return;
      }
      var updated := service.Update(b, today);
      r := OutcomeResponse(OK, updated);
    }

    /** deleteBooking: 204 once the booking is found and deleted. The 404
        raised for an unknown id is thrown inside the try block, so the
        generic handler turns it into 400 keyed "error". */
    method DeleteBooking(id: int) returns (r: Response<Booking>)
      requires service.Valid()
      modifies service
      ensures service.Valid()
      ensures id !in old(service.bookings) ==>
        r == Response(BAD_REQUEST, Fields(map["error" := Message(WebApplication(NOT_FOUND))])) &&
        service.bookings == old(service.bookings)
      ensures id in old(service.bookings) ==>
        r == Response(NO_CONTENT, NoEntity) && service.bookings == old(service.bookings) - {id}
    {
      var found := service.FindById(id);
      if found.None? {
        r := Response(BAD_REQUEST, Fields(map["error" := Message(WebApplication(NOT_FOUND))]));
        return;
      }
      var deleted := service.Delete(found.value);
      r := Response(NO_CONTENT, NoEntity);
    }
  }
}
