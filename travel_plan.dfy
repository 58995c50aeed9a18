/** The travel-plan aggregate: what a customer asks for (a sketch) and the
    record the agent stores once the remote bookings are made. */
module TravelPlans {
  import opened Common

  /** The request body of a plan: customer, hotel, flight and taxi ids and the
      booking date, which is passed on to the remote services as text. Every
      field is a nullable object; the @NotNull annotations on them are never
      checked, so a sketch with null fields reaches the saga as it is. */
  datatype TravelSketch = TravelSketch(
    customerId: Option<int>,
    hotelId: Option<int>,
    flightId: Option<int>,
    taxiId: Option<int>,
    bookingDate: Option<string>)

  /** A stored plan. The id is generated by the store; every other field is a
      nullable column and a setter changes only its own field. */
  datatype TravelPlan = TravelPlan(
    id: Option<int>,
    customerId: Option<int>,
    flightBookingId: Option<int>,
    hotelBookingId: Option<int>,
    taxiBookingId: Option<int>)

  /** `new TravelPlan()`: every field null. */
  const EmptyPlan := TravelPlan(None, None, None, None, None)

  /** The property paths that carry a @NotNull constraint. */
  const BOOKING_ID_PATHS: set<string> := {"flightBookingId", "hotelBookingId", "taxiBookingId"}

  /** The violation a @NotNull field reports when it is null. */
  function NotNull(path: string, field: Option<int>): seq<Violation> {
    if field.None? then [Violation(path, NOT_NULL_MESSAGE)] else []
  }

  /** Bean Validation of a plan: the three booking ids must be non-null; the
      id and the customer carry no constraint. */
  function Violations(p: TravelPlan): (vs: seq<Violation>)
    ensures vs == [] <==> p.flightBookingId.Some? && p.hotelBookingId.Some? && p.taxiBookingId.Some?
    ensures forall i :: 0 <= i < |vs| ==> vs[i].path in BOOKING_ID_PATHS && vs[i].message == NOT_NULL_MESSAGE
    ensures forall i, j :: 0 <= i < j < |vs| ==> vs[i].path != vs[j].path
    ensures |vs| <= 3
  {
    NotNull("flightBookingId", p.flightBookingId)
      + NotNull("hotelBookingId", p.hotelBookingId)
      + NotNull("taxiBookingId", p.taxiBookingId)
  }

  /** A path is reported exactly when its booking id is null. */
  lemma ViolationPaths(p: TravelPlan)
    ensures Paths(Violations(p)) ==
      (if p.flightBookingId.None? then {"flightBookingId"} else {}) +
      (if p.hotelBookingId.None? then {"hotelBookingId"} else {}) +
      (if p.taxiBookingId.None? then {"taxiBookingId"} else {})
  {
    var vs := Violations(p);
    var expected :=
      (if p.flightBookingId.None? then {"flightBookingId"} else {}) +
      (if p.hotelBookingId.None? then {"hotelBookingId"} else {}) +
      (if p.taxiBookingId.None? then {"taxiBookingId"} else {});
    forall q | q in expected ensures q in Paths(vs) {
      var f := NotNull("flightBookingId", p.flightBookingId);
      var h := NotNull("hotelBookingId", p.hotelBookingId);
      if q == "flightBookingId" {
        assert vs[0].path == q;
      } else if q == "hotelBookingId" {
        assert vs[|f|].path == q;
      } else {
        assert vs[|f| + |h|].path == q;
      }
    }
  }

  /** The id and the customer never affect validation: only the booking ids do. */
  lemma ViolationsIgnoreIdAndCustomer(p: TravelPlan, id: Option<int>, customerId: Option<int>)
    ensures Violations(p.(id := id, customerId := customerId)) == Violations(p)
  {
  }

  /** FIND_ALL order: each plan has an id and the ids strictly ascend. */
  ghost predicate Ascending(rows: seq<TravelPlan>) {
    (forall i :: 0 <= i < |rows| ==> rows[i].id.Some?) &&
    (forall i, j :: 0 <= i < j < |rows| ==> rows[i].id.value < rows[j].id.value)
  }
}
