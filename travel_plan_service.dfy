/** TravelPlanService: the travel-agent saga. A plan is made by booking a
    hotel and then a flight on remote services, assigning a fixed taxi id, and
    storing the result; a failure while booking deletes the bookings already
    made and is then rethrown. Cancelling deletes both remote bookings and
    then the stored plan.

    Each operation is stated twice: a function of the sketch or plan and the
    script of remote answers, which the lemmas below reason about, and a
    method over the shared client and the store that is proved to do what the
    function says. */
module TravelPlanSaga {
  import opened Common
  import opened Remote
  import opened TravelPlans
  import opened TravelPlanValidation
  import opened TravelPlanStore

  // The agent's own customer id at each remote service.
  const TRAVEL_AGENT_TAXI := 0
  const TRAVEL_AGENT_FLIGHT := 18181
  const TRAVEL_AGENT_HOTEL := 18181

  /** No taxi service is contacted; every plan gets this taxi booking id. */
  const TAXI_BOOKING_ID := 2

  const HOTEL_FAILURE := "Failed to create a hotel booking"
  const FLIGHT_FAILURE := "Failed to create a flight booking"

  /** What JSONObject.getLong raises for a body with no `id` field. */
  const MISSING_ID_MESSAGE := "JSONObject[\"id\"] not found."

  /** The IOException of a request that got no answer; its text comes from
      the client library and is not modelled beyond this placeholder. */
  const CONNECTION_FAILURE := "I/O error"

  /** The booking date as it appears in a POST body: string concatenation
      writes a null date as "null". */
  function DateText(date: Option<string>): string {
    if date.Some? then date.value else "null"
  }

  /** The hotel booking POST. It carries the flight-agent constant as the
      customer id; both agent constants are 18181. There is none when the
      sketch has no hotel id: building the body dereferences that id. */
  function HotelRequest(s: TravelSketch): Option<Request> {
    if s.hotelId.None? then None
    else Some(Post(HotelHost, TRAVEL_AGENT_FLIGHT, s.hotelId.value, DateText(s.bookingDate)))
  }

  /** The flight booking POST, carrying the hotel-agent constant; none when
      the sketch has no flight id. */
  function FlightRequest(s: TravelSketch): Option<Request> {
    if s.flightId.None? then None
    else Some(Post(FlightHost, TRAVEL_AGENT_HOTEL, s.flightId.value, DateText(s.bookingDate)))
  }

  /** The status line of an answer that arrived. */
  function Status(resp: Resp): int
    requires !resp.TransportError?
  {
    match resp
    case Created(_) => CREATED
    case CreatedBadBody => CREATED
    case OtherStatus(code) => code
  }

  /** The `id` field of a 201 body, when the body has one. */
  function BodyId(resp: Resp): Option<int> {
    if resp.Created? then Some(resp.id) else None
  }

  /** bookHotel / bookFlight after the request is sent: a transport error
      propagates, a status other than 201 fails with `failure`, and a 201 body
      without an id fails when the id is read. */
  function PostOutcome(resp: Resp, failure: string): (r: Result<int>)
    ensures r.Ok? <==> resp.Created?
    ensures r.Ok? ==> r.value == resp.id
    ensures resp.TransportError? ==> r == Err(Other(CONNECTION_FAILURE))
    ensures resp.OtherStatus? && resp.code != CREATED ==> r == Err(Other(failure))
    ensures resp.CreatedBadBody? || resp == OtherStatus(CREATED) ==> r == Err(Other(MISSING_ID_MESSAGE))
  {
    if resp.TransportError? then Err(Other(CONNECTION_FAILURE))
    else if Status(resp) != CREATED then Err(Other(failure))
    else
      match BodyId(resp)
      case None => Err(Other(MISSING_ID_MESSAGE))
      case Some(id) => Ok(id)
  }

  /** Exchanges sent, script left and outcome of a sequence of DELETEs. */
  datatype Step = Step(exchanges: seq<Exchange>, rest: seq<Resp>, outcome: Outcome)

  /** One DELETE: whatever its status, only a transport error fails it. */
  function DeleteStep(req: Request, script: seq<Resp>): (st: Step)
    ensures st.exchanges == [Exchange(req, NextResponse(script))] && st.rest == RestScript(script)
    ensures st.outcome.Fail? <==> NextResponse(script).TransportError?
    ensures st.outcome.Fail? ==> st.outcome.error == Other(CONNECTION_FAILURE)
  {
    var resp := NextResponse(script);
    Step([Exchange(req, resp)], RestScript(script), if resp.TransportError? then Fail(Other(CONNECTION_FAILURE)) else Pass)
  }

  /** Two steps in a row; the second runs only when the first passed. */
  function Then(first: Step, second: seq<Resp> -> Step): Step {
    if first.outcome.Fail? then first
    else
      var st := second(first.rest);
      Step(first.exchanges + st.exchanges, st.rest, st.outcome)
  }

  /** revert: delete the hotel booking if its id is set, then the flight
      booking if its id is set. */
  function RevertRun(plan: TravelPlan, script: seq<Resp>): (st: Step)
    ensures plan.hotelBookingId.None? && plan.flightBookingId.None? ==> st == Step([], script, Pass)
    ensures plan.hotelBookingId.Some? && plan.flightBookingId.None? ==> st == DeleteStep(Delete(HotelHost, plan.hotelBookingId), script)
    ensures plan.hotelBookingId.None? && plan.flightBookingId.Some? ==> st == DeleteStep(Delete(FlightHost, plan.flightBookingId), script)
    ensures plan.hotelBookingId.Some? && plan.flightBookingId.Some? && NextResponse(script).TransportError? ==>
      st == DeleteStep(Delete(HotelHost, plan.hotelBookingId), script)
    ensures plan.hotelBookingId.Some? && plan.flightBookingId.Some? && !NextResponse(script).TransportError? ==>
      st.exchanges == [Exchange(Delete(HotelHost, plan.hotelBookingId), NextResponse(script)),
                       Exchange(Delete(FlightHost, plan.flightBookingId), NextResponse(RestScript(script)))] &&
      st.rest == RestScript(RestScript(script)) &&
      (st.outcome.Fail? <==> NextResponse(RestScript(script)).TransportError?)
    ensures |st.exchanges| <= 2
    ensures forall i :: 0 <= i < |st.exchanges| ==> st.exchanges[i].request.Delete?
    ensures NoContact(st.exchanges, TaxiHost)
  {
    var first :=
      if plan.hotelBookingId.Some? then DeleteStep(Delete(HotelHost, plan.hotelBookingId), script)
      else Step([], script, Pass);
    if plan.flightBookingId.None? then first
    else Then(first, (rest: seq<Resp>) => DeleteStep(Delete(FlightHost, plan.flightBookingId), rest))
  }

  /** Exchanges sent, script left and result of the booking phase of create. */
  datatype Run = Run(exchanges: seq<Exchange>, rest: seq<Resp>, result: Result<TravelPlan>)

  /** The catch block: revert, then rethrow; an exception raised by revert
      itself replaces the one caught. It always ends in an exception, adds
      only DELETEs (at most two) to what was sent, and rethrows the caught
      exception unless a DELETE got no answer. */
  function Compensate(plan: TravelPlan, error: Exc, sent: seq<Exchange>, script: seq<Resp>): (run: Run)
    ensures run.result.Err?
    ensures |sent| <= |run.exchanges| <= |sent| + 2 && run.exchanges[..|sent|] == sent
    ensures forall i :: |sent| <= i < |run.exchanges| ==>
      run.exchanges[i].request.Delete? && run.exchanges[i].request.host != TaxiHost
    ensures run.result.error == error || run.result.error == Other(CONNECTION_FAILURE)
    ensures RevertRun(plan, script).outcome.Pass? ==> run.result.error == error
  {
    var rv := RevertRun(plan, script);
    Run(sent + rv.exchanges, rv.rest, Err(if rv.outcome.Fail? then rv.outcome.error else error))
  }

  /** The plan before any booking: only the customer id is copied over,
      null included. */
  function InitialPlan(s: TravelSketch): TravelPlan {
    EmptyPlan.(customerId := s.customerId)
  }

  /** What bookHotel or bookFlight sent, the script left and its result. */
  datatype Booked = Booked(exchanges: seq<Exchange>, rest: seq<Resp>, result: Result<int>)

  /** bookHotel / bookFlight: with no request (a null id) building the body
      throws a NullPointerException before anything is sent; otherwise the
      request is sent and its answer read by PostOutcome. */
  function BookingStep(req: Option<Request>, failure: string, script: seq<Resp>): Booked {
    if req.None? then Booked([], script, Err(Other(NULL_POINTER_MESSAGE)))
    else Booked([Exchange(req.value, NextResponse(script))], RestScript(script), PostOutcome(NextResponse(script), failure))
  }

  /** Every POST among the exchanges carries customer 18181, the sketch's id
      for its host and the sketch's date. */
  predicate PostsFrom(s: TravelSketch, xs: seq<Exchange>) {
    forall i :: 0 <= i < |xs| && xs[i].request.Post? ==>
      var req := xs[i].request;
      req.customerId == 18181 && req.bookingDate == DateText(s.bookingDate) &&
      (req.host == HotelHost ==> s.hotelId == Some(req.resourceId)) &&
      (req.host == FlightHost ==> s.flightId == Some(req.resourceId))
  }

  /** The catch block adds only DELETEs, none to the taxi service, so what
      holds of the POSTs already sent holds of the whole log. */
  lemma CompensateKeepsPosts(s: TravelSketch, plan: TravelPlan, error: Exc, sent: seq<Exchange>, script: seq<Resp>)
    requires NoContact(sent, TaxiHost) && PostsFrom(s, sent)
    ensures NoContact(Compensate(plan, error, sent, script).exchanges, TaxiHost)
    ensures PostsFrom(s, Compensate(plan, error, sent, script).exchanges)
  {
    var xs := Compensate(plan, error, sent, script).exchanges;
    forall i | 0 <= i < |sent| ensures xs[i] == sent[i] {
      assert xs[..|sent|][i] == sent[i];
    }
  }

  /** Two logs that each keep away from the taxi service and carry the
      sketch's POSTs still do so once joined. */
  lemma LogsJoin(s: TravelSketch, xs: seq<Exchange>, ys: seq<Exchange>)
    requires NoContact(xs, TaxiHost) && PostsFrom(s, xs)
    requires NoContact(ys, TaxiHost) && PostsFrom(s, ys)
    ensures NoContact(xs + ys, TaxiHost) && PostsFrom(s, xs + ys)
  {
    forall i | |xs| <= i < |xs + ys| ensures (xs + ys)[i] == ys[i - |xs|] { }
  }

  /** The try block from the flight booking on, once the hotel booking
      `hotelId` is made, with its catch. */
  function FlightRun(s: TravelSketch, hotelId: int, script: seq<Resp>): (run: Run)
    ensures NoContact(run.exchanges, TaxiHost)
    ensures PostsFrom(s, run.exchanges)
    ensures run.result.Ok? <==> s.flightId.Some? && NextResponse(script).Created?
    ensures run.result.Ok? ==>
      run.result.value == TravelPlan(None, s.customerId, Some(NextResponse(script).id), Some(hotelId), Some(TAXI_BOOKING_ID))
    ensures run.result.Ok? ==> run.exchanges == [Exchange(FlightRequest(s).value, NextResponse(script))]
    ensures run.result.Err? ==> run.result.error.Other?
  {
    var plan := InitialPlan(s).(hotelBookingId := Some(hotelId));
    var flight := BookingStep(FlightRequest(s), FLIGHT_FAILURE, script);
    match flight.result
    case Err(e) =>
      CompensateKeepsPosts(s, plan, e, flight.exchanges, flight.rest);
      Compensate(plan, e, flight.exchanges, flight.rest)
    case Ok(flightId) =>
      Run(flight.exchanges, flight.rest, Ok(plan.(flightBookingId := Some(flightId), taxiBookingId := Some(TAXI_BOOKING_ID))))
  }

  /** The try block of create with its catch: book the hotel, book the
      flight, set the taxi id. */
  function BookingRun(s: TravelSketch, script: seq<Resp>): (run: Run)
    ensures NoContact(run.exchanges, TaxiHost)
    ensures PostsFrom(s, run.exchanges)
    ensures run.result.Ok? <==>
      s.hotelId.Some? && s.flightId.Some? && NextResponse(script).Created? && NextResponse(RestScript(script)).Created?
    ensures run.result.Ok? ==>
      run.result.value == TravelPlan(None, s.customerId,
        Some(NextResponse(RestScript(script)).id), Some(NextResponse(script).id), Some(TAXI_BOOKING_ID))
    ensures run.result.Ok? ==> (run.exchanges ==
      [Exchange(HotelRequest(s).value, NextResponse(script)), Exchange(FlightRequest(s).value, NextResponse(RestScript(script)))])
    ensures run.result.Err? ==> run.result.error.Other?
  {
    var plan := InitialPlan(s);
    var hotel := BookingStep(HotelRequest(s), HOTEL_FAILURE, script);
    match hotel.result
    case Err(e) =>
      CompensateKeepsPosts(s, plan, e, hotel.exchanges, hotel.rest);
      Compensate(plan, e, hotel.exchanges, hotel.rest)
    case Ok(hotelId) =>
      var rest := FlightRun(s, hotelId, hotel.rest);
      LogsJoin(s, hotel.exchanges, rest.exchanges);
      Run(hotel.exchanges + rest.exchanges, rest.rest, rest.result)
  }

  /** delete, up to the local removal: DELETE the hotel booking, then the
      flight booking, sending whatever ids the plan holds (null included) and
      ignoring the statuses. The taxi service is never contacted, and only a
      DELETE without an answer fails, which stops the sequence. */
  function CancelRun(plan: TravelPlan, script: seq<Resp>): (st: Step)
    ensures NoContact(st.exchanges, TaxiHost)
    ensures var first, rest := NextResponse(script), RestScript(script);
      (first.TransportError? ==>
        st == Step([Exchange(Delete(HotelHost, plan.hotelBookingId), first)], rest, Fail(Other(CONNECTION_FAILURE)))) &&
      (!first.TransportError? ==>
        st.exchanges == [Exchange(Delete(HotelHost, plan.hotelBookingId), first),
                         Exchange(Delete(FlightHost, plan.flightBookingId), NextResponse(rest))] &&
        st.rest == RestScript(rest) &&
        (st.outcome.Pass? <==> !NextResponse(rest).TransportError?))
  {
    Then(DeleteStep(Delete(HotelHost, plan.hotelBookingId), script),
         (rest: seq<Resp>) => DeleteStep(Delete(FlightHost, plan.flightBookingId), rest))
  }

  /** A sketch without a hotel id fails before any request: the
      NullPointerException is rethrown and revert has nothing to delete. */
  lemma NullHotelIdSendsNothing(s: TravelSketch, script: seq<Resp>)
    requires s.hotelId.None?
    ensures BookingRun(s, script) == Run([], script, Err(Other(NULL_POINTER_MESSAGE)))
  {
  }

  /** A failed hotel booking (any status but 201, a 201 without an id, or no
      answer) sends nothing more: no DELETE goes out and the hotel error is
      the one raised. */
  lemma HotelFailureSendsNoDelete(s: TravelSketch, script: seq<Resp>)
    requires s.hotelId.Some?
    requires !NextResponse(script).Created?
    ensures var run := BookingRun(s, script);
      run.exchanges == [Exchange(HotelRequest(s).value, NextResponse(script))] &&
      Deletes(run.exchanges) == [] &&
      run.rest == RestScript(script) &&
      run.result == Err(PostOutcome(NextResponse(script), HOTEL_FAILURE).error)
  {
    var run := BookingRun(s, script);
    assert Deletes(run.exchanges) == Deletes(run.exchanges[..0]);
  }

  /** A 201 without an id leaves the remote hotel booking in place: it was
      made, but its id never reaches the plan and no DELETE is sent for it. */
  lemma HotelWithoutIdOrphaned(s: TravelSketch, script: seq<Resp>)
    requires s.hotelId.Some?
    requires NextResponse(script) == CreatedBadBody
    ensures BookingRun(s, script).exchanges == [Exchange(HotelRequest(s).value, CreatedBadBody)]
    ensures BookingRun(s, script).result == Err(Other(MISSING_ID_MESSAGE))
  {
    HotelFailureSendsNoDelete(s, script);
  }

  /** A failed flight booking after a hotel booking sends exactly one DELETE,
      for the hotel booking id; the flight id is still null so no flight
      DELETE goes out. The flight error is rethrown unless that DELETE got no
      answer, whose error then replaces it. */
  lemma FlightFailureDeletesHotelOnly(s: TravelSketch, script: seq<Resp>)
    requires s.hotelId.Some? && s.flightId.Some?
    requires NextResponse(script).Created?
    requires !NextResponse(RestScript(script)).Created?
    ensures var hotel, rest := NextResponse(script), RestScript(script);
      var flight, rest2 := NextResponse(rest), RestScript(rest);
      var run := BookingRun(s, script);
      run.exchanges == [Exchange(HotelRequest(s).value, hotel), Exchange(FlightRequest(s).value, flight),
                        Exchange(Delete(HotelHost, Some(hotel.id)), NextResponse(rest2))] &&
      Deletes(run.exchanges) == [Delete(HotelHost, Some(hotel.id))] &&
      run.rest == RestScript(rest2) &&
      run.result == Err(if NextResponse(rest2).TransportError? then Other(CONNECTION_FAILURE)
                        else PostOutcome(flight, FLIGHT_FAILURE).error)
  {
    var run := BookingRun(s, script);
    var xs := run.exchanges;
    assert xs[..2][..1] == xs[..1];
    assert Deletes(xs[..1]) == Deletes(xs[..0]);
    assert Deletes(xs[..2]) == Deletes(xs[..1]);
    assert xs[..3] == xs;
  }

  /** A sketch without a flight id, after a 201 from the hotel service,
      sends exactly the hotel POST and one DELETE of that hotel booking: the
      flight body throws before the flight service is contacted, and the
      NullPointerException is rethrown unless the DELETE got no answer. */
  lemma NullFlightIdDeletesHotel(s: TravelSketch, script: seq<Resp>)
    requires s.hotelId.Some? && s.flightId.None?
    requires NextResponse(script).Created?
    ensures var hotel, rest := NextResponse(script), RestScript(script);
      var run := BookingRun(s, script);
      run.exchanges == [Exchange(HotelRequest(s).value, hotel),
                        Exchange(Delete(HotelHost, Some(hotel.id)), NextResponse(rest))] &&
      Deletes(run.exchanges) == [Delete(HotelHost, Some(hotel.id))] &&
      run.rest == RestScript(rest) &&
      run.result == Err(if NextResponse(rest).TransportError? then Other(CONNECTION_FAILURE)
                        else Other(NULL_POINTER_MESSAGE))
  {
    var run := BookingRun(s, script);
    var xs := run.exchanges;
    assert Deletes(xs[..1]) == Deletes(xs[..0]);
    assert xs[..2] == xs;
  }

  /** create sends at most one compensating DELETE, and only ever to the
      hotel service: the step after the flight booking cannot throw, so the
      catch block never sees a flight booking id. */
  lemma {:induction false} AtMostOneCompensation(s: TravelSketch, script: seq<Resp>)
    ensures |Deletes(BookingRun(s, script).exchanges)| <= 1
    ensures forall i :: 0 <= i < |Deletes(BookingRun(s, script).exchanges)| ==>
      Deletes(BookingRun(s, script).exchanges)[i].host == HotelHost
  {
    var run := BookingRun(s, script);
    if s.hotelId.None? {
      NullHotelIdSendsNothing(s, script);
    } else if !NextResponse(script).Created? {
      HotelFailureSendsNoDelete(s, script);
    } else if s.flightId.None? {
      NullFlightIdDeletesHotel(s, script);
    } else if !NextResponse(RestScript(script)).Created? {
      FlightFailureDeletesHotelOnly(s, script);
    } else {
      var xs := run.exchanges;
      assert xs[..2][..1] == xs[..1];
      assert Deletes(xs[..1]) == Deletes(xs[..0]);
      assert xs[..2] == xs;
    }
  }

  /** The plan the booking phase produces always passes validation and has
      no id yet, so validating and persisting it after the try block can
      never send a compensating DELETE. */
  lemma BookedPlanCommits(s: TravelSketch, script: seq<Resp>)
    requires BookingRun(s, script).result.Ok?
    ensures ValidateTravelPlan(BookingRun(s, script).result.value) == Pass
    ensures BookingRun(s, script).result.value.id.None?
  {
  }

  class TravelPlanService {
    const crud: TravelPlanRepository
    const http: RemoteHosts

    constructor (crud: TravelPlanRepository, http: RemoteHosts)
      ensures this.crud == crud && this.http == http
    {
      this.crud := crud;
      this.http := http;
    }

    /** findById: the store's lookup. */
    function FindById(id: int): (r: Option<TravelPlan>)
      reads crud
      ensures r.None? <==> forall i :: 0 <= i < |crud.rows| ==> crud.rows[i].id != Some(id)
      ensures r.Some? ==> r.value in crud.rows && r.value.id == Some(id)
    {
      crud.FindById(id)
    }

    /** Send a booking POST and read the new booking's id from the answer. */
    method SendBooking(req: Request, failure: string) returns (r: Result<int>)
      modifies http
      ensures http.log == old(http.log) + [Exchange(req, NextResponse(old(http.script)))]
      ensures http.script == RestScript(old(http.script))
      ensures r == PostOutcome(NextResponse(old(http.script)), failure)
    {
      var resp := http.Execute(req);
      if resp.TransportError? {
        r := Err(Other(CONNECTION_FAILURE));
      } else if Status(resp) != CREATED {
        r := Err(Other(failure));
      } else {
        var id := BodyId(resp);
        r := if id.Some? then Ok(id.value) else Err(Other(MISSING_ID_MESSAGE));
      }
    }

    /** bookHotel: a null hotel id throws before the POST is sent. */
    method BookHotel(s: TravelSketch) returns (r: Result<int>)
      modifies http
      ensures s.hotelId.None? ==>
        r == Err(Other(NULL_POINTER_MESSAGE)) && http.log == old(http.log) && http.script == old(http.script)
      ensures s.hotelId.Some? ==>
        http.log == old(http.log) + [Exchange(HotelRequest(s).value, NextResponse(old(http.script)))] &&
        http.script == RestScript(old(http.script)) &&
        r == PostOutcome(NextResponse(old(http.script)), HOTEL_FAILURE)
      ensures var b := BookingStep(HotelRequest(s), HOTEL_FAILURE, old(http.script));
        http.log == old(http.log) + b.exchanges && http.script == b.rest && r == b.result
    {
      var req := HotelRequest(s);
      if req.None? {
        r := Err(Other(NULL_POINTER_MESSAGE));
        return;
      }
      r := SendBooking(req.value, HOTEL_FAILURE);
    }

    /** bookFlight: a null flight id throws before the POST is sent. */
    method BookFlight(s: TravelSketch) returns (r: Result<int>)
      modifies http
      ensures s.flightId.None? ==>
        r == Err(Other(NULL_POINTER_MESSAGE)) && http.log == old(http.log) && http.script == old(http.script)
      ensures s.flightId.Some? ==>
        http.log == old(http.log) + [Exchange(FlightRequest(s).value, NextResponse(old(http.script)))] &&
        http.script == RestScript(old(http.script)) &&
        r == PostOutcome(NextResponse(old(http.script)), FLIGHT_FAILURE)
      ensures var b := BookingStep(FlightRequest(s), FLIGHT_FAILURE, old(http.script));
        http.log == old(http.log) + b.exchanges && http.script == b.rest && r == b.result
    {
      var req := FlightRequest(s);
      if req.None? {
        r := Err(Other(NULL_POINTER_MESSAGE));
        return;
      }
      r := SendBooking(req.value, FLIGHT_FAILURE);
    }

    /** Send a DELETE; its status is ignored, only a transport error fails. */
    method SendDelete(req: Request) returns (r: Outcome)
      modifies http
      ensures var st := DeleteStep(req, old(http.script));
        http.log == old(http.log) + st.exchanges && http.script == st.rest && r == st.outcome
    {
      var resp := http.Execute(req);
      r := if resp.TransportError? then Fail(Other(CONNECTION_FAILURE)) else Pass;
    }

    /** revert */
    method Revert(plan: TravelPlan) returns (r: Outcome)
      modifies http
      ensures var st := RevertRun(plan, old(http.script));
        http.log == old(http.log) + st.exchanges && http.script == st.rest && r == st.outcome
    {
      r := Pass;
      if plan.hotelBookingId.Some? {
        r := SendDelete(Request.Delete(HotelHost, plan.hotelBookingId));
        if r.Fail? {
          return;
        }
      }
      if plan.flightBookingId.Some? {
        r := SendDelete(Request.Delete(FlightHost, plan.flightBookingId));
      }
    }

    /** The try block of create and its catch. */
    method Book(s: TravelSketch) returns (r: Result<TravelPlan>)
      modifies http
      ensures var run := BookingRun(s, old(http.script));
        http.log == old(http.log) + run.exchanges && http.script == run.rest && r == run.result
    {
      var plan := InitialPlan(s);
      var hotel := BookHotel(s);
      ghost var hb := BookingStep(HotelRequest(s), HOTEL_FAILURE, old(http.script));
      if hotel.Err? {
        var reverted := Revert(plan);
        ghost var rv := RevertRun(plan, hb.rest);
        AppendTwice(old(http.log), hb.exchanges, rv.exchanges);
        match reverted
        case Fail(e) => r := Err(e);
        case Pass => r := Err(hotel.error);
        return;
      }
      r := BookFlightAndTaxi(s, hotel.value);
      ghost var fr := FlightRun(s, hotel.value, hb.rest);
      AppendTwice(old(http.log), hb.exchanges, fr.exchanges);
    }

    /** The rest of the try block once the hotel booking `hotelId` is made:
        book the flight and set the taxi id, reverting the hotel booking when
        the flight booking fails. */
    method BookFlightAndTaxi(s: TravelSketch, hotelId: int) returns (r: Result<TravelPlan>)
      modifies http
      ensures var run := FlightRun(s, hotelId, old(http.script));
        http.log == old(http.log) + run.exchanges && http.script == run.rest && r == run.result
    {
      var plan := InitialPlan(s).(hotelBookingId := Some(hotelId));
      var flight := BookFlight(s);
      if flight.Err? {
        var reverted := Revert(plan);
        r := Err(if reverted.Fail? then reverted.error else flight.error);
        return;
      }
      plan := plan.(flightBookingId := Some(flight.value));
      plan := plan.(taxiBookingId := Some(TAXI_BOOKING_ID));
      r := Ok(plan);
    }

    /** The end of create, outside the try: validate, then persist. Neither
        touches the remote services. */
    method Commit(plan: TravelPlan) returns (r: Result<TravelPlan>)
      requires crud.Valid()
      modifies crud
      ensures crud.Valid()
      ensures ValidateTravelPlan(plan).Fail? ==>
        r == Err(ValidateTravelPlan(plan).error) && crud.rows == old(crud.rows) && crud.nextId == old(crud.nextId)
      ensures ValidateTravelPlan(plan).Pass? && plan.id.Some? ==>
        r == Err(Other(DETACHED_MESSAGE)) && crud.rows == old(crud.rows) && crud.nextId == old(crud.nextId)
      ensures ValidateTravelPlan(plan).Pass? && plan.id.None? ==>
        r == Ok(plan.(id := Some(old(crud.nextId)))) && crud.rows == old(crud.rows) + [r.value] &&
        crud.nextId == old(crud.nextId) + 1
    {
      var v := ValidateTravelPlan(plan);
      if v.Fail? {
        r := Err(v.error);
        return;
      }
      r := crud.Create(plan);
    }

    /** create: book, then validate and persist. A booking failure leaves the
        store untouched; once both bookings succeeded the plan is always valid
        and new, so it is stored with a fresh id. */
    method Create(s: TravelSketch) returns (r: Result<TravelPlan>)
      requires crud.Valid()
      modifies http, crud
      ensures crud.Valid()
      ensures var run := BookingRun(s, old(http.script));
        http.log == old(http.log) + run.exchanges && http.script == run.rest
      ensures var run := BookingRun(s, old(http.script));
        run.result.Err? ==> r == run.result && crud.rows == old(crud.rows) && crud.nextId == old(crud.nextId)
      ensures var run := BookingRun(s, old(http.script));
        run.result.Ok? ==>
          r == Ok(run.result.value.(id := Some(old(crud.nextId)))) &&
          crud.rows == old(crud.rows) + [r.value] && crud.nextId == old(crud.nextId) + 1
    {
      var booked := Book(s);
      if booked.Err? {
        r := booked;
      } else {
        r := Commit(booked.value);
      }
    }

    /** delete: the two remote DELETEs, then the local removal when the plan
        has an id; null is returned for a plan without one. */
    method Delete(plan: TravelPlan) returns (r: Result<Option<TravelPlan>>)
      requires crud.Valid()
      modifies http, crud
      ensures crud.Valid() && crud.nextId == old(crud.nextId)
      ensures var st := CancelRun(plan, old(http.script));
        http.log == old(http.log) + st.exchanges && http.script == st.rest
      ensures var st := CancelRun(plan, old(http.script));
        st.outcome.Fail? ==> r == Err(st.outcome.error) && crud.rows == old(crud.rows)
      ensures var st := CancelRun(plan, old(http.script));
        st.outcome.Pass? && plan.id.None? ==> r == Ok(None) && crud.rows == old(crud.rows)
      ensures var st := CancelRun(plan, old(http.script));
        st.outcome.Pass? && plan.id.Some? ==> r == Ok(Some(plan)) && crud.rows == RemoveId(old(crud.rows), plan.id.value)
    {
      var hotel := SendDelete(Request.Delete(HotelHost, plan.hotelBookingId));
      if hotel.Fail? {
        r := Err(hotel.error);
        return;
      }
      var flight := SendDelete(Request.Delete(FlightHost, plan.flightBookingId));
      if flight.Fail? {
        r := Err(flight.error);
        return;
      }
      if plan.id.Some? {
        var deleted := crud.Delete(plan);
        r := Ok(Some(deleted));
      } else {
        r := Ok(None);
      }
    }
  }
}
