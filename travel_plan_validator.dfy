/** TravelPlanValidator: Bean Validation of a plan, with no further checks
    (the email uniqueness check of the customer validator is switched off
    here). */
module TravelPlanValidation {
  import opened Common
  import opened TravelPlans

  /** validateTravelPlan: throws a ConstraintViolationException carrying the
      bean violations when there are any, and otherwise returns normally. It
      never raises a plain ValidationException, and it reads no store. */
  function ValidateTravelPlan(p: TravelPlan): (r: Outcome)
    ensures r.Pass? <==> p.flightBookingId.Some? && p.hotelBookingId.Some? && p.taxiBookingId.Some?
    ensures r.Fail? ==> r.error.ConstraintViolation? && r.error.violations == Violations(p) && r.error.violations != []
  {
    var vs := Violations(p);
    if vs != [] then Fail(ConstraintViolation(vs)) else Pass
  }

  /** A plan whose three booking ids are set passes whatever their values
      (zero and negative ids included) and whoever the customer is. */
  lemma AnyBookingIdsPass(p: TravelPlan, flight: int, hotel: int, taxi: int)
    ensures ValidateTravelPlan(p.(flightBookingId := Some(flight), hotelBookingId := Some(hotel), taxiBookingId := Some(taxi))) == Pass
  {
  }

  /** Each null booking id is reported on its own property path. */
  lemma FailureNamesNullIds(p: TravelPlan)
    requires ValidateTravelPlan(p).Fail?
    ensures Paths(ValidateTravelPlan(p).error.violations) ==
      (if p.flightBookingId.None? then {"flightBookingId"} else {}) +
      (if p.hotelBookingId.None? then {"hotelBookingId"} else {}) +
      (if p.taxiBookingId.None? then {"taxiBookingId"} else {})
  {
    ViolationPaths(p);
  }
}
