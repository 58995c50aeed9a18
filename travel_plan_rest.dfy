/** TravelPlanRESTService: the HTTP boundary of the travel agent. Each
    operation turns the service's result, or the exception it throws, into a
    status and a JSON entity. */
module TravelPlanRest {
  import opened Common
  import opened Remote
  import opened TravelPlans
  import opened TravelPlanStore
  import opened TravelPlanSaga

  const EMAIL_CONFLICT := "That email is already used, please use a unique email"

  /** A generic failure: 400 with the exception's message under "error". */
  function ErrorResponse<T>(e: Exc): (r: Response<T>)
    ensures r.status == BAD_REQUEST && r.entity.Fields? && r.entity.fields.Keys == {"error"}
    ensures r.entity.fields["error"] == Message(e)
  {
    Response(BAD_REQUEST, Fields(map["error" := Message(e)]))
  }

  /** The catch clauses of createTravelPlan: 201 with the submitted sketch on
      success, 400 with one entry per violated path for a constraint
      violation, 409 keyed "email" for any other validation error, and 400
      keyed "error" for everything else (a failed remote booking included). */
  function CreateTravelPlanResponse(sketch: TravelSketch, outcome: Result<TravelPlan>): (r: Response<TravelSketch>)
    ensures outcome.Ok? ==> r == Response(CREATED, Body(sketch))
    ensures outcome.Err? && outcome.error.ConstraintViolation? ==>
      r.status == BAD_REQUEST && r.entity.Fields? && r.entity.fields.Keys == Paths(outcome.error.violations)
    ensures outcome.Err? && outcome.error.Validation? ==>
      r == Response(CONFLICT, Fields(map["email" := EMAIL_CONFLICT]))
    ensures outcome.Err? && (outcome.error.Other? || outcome.error.WebApplication?) ==>
      r == ErrorResponse(outcome.error)
  {
    match outcome
    case Ok(_) => Response(CREATED, Body(sketch))
    case Err(e) =>
      match e
      case ConstraintViolation(vs) =>
        ViolationFieldsKeys(vs);
        Response(BAD_REQUEST, Fields(ViolationFields(vs)))
      case Validation(_) => Response(CONFLICT, Fields(map["email" := EMAIL_CONFLICT]))
      case _ => ErrorResponse(e)
  }

  /** Every way create can fail surfaces as 400 keyed "error": bookings fail
      with plain exceptions and a booked plan always passes validation. */
  lemma CreateFailureIsBadRequest(s: TravelSketch, script: seq<Resp>)
    requires BookingRun(s, script).result.Err?
    ensures CreateTravelPlanResponse(s, BookingRun(s, script).result) == ErrorResponse(BookingRun(s, script).result.error)
    ensures CreateTravelPlanResponse(s, BookingRun(s, script).result).entity.fields.Keys == {"error"}
  {
  }

  class TravelPlanRESTService {
    const service: TravelPlanService

    constructor (service: TravelPlanService)
      ensures this.service == service
    {
      this.service := service;
    }

    /** retrieveTravelPlanById: 200 with the plan, or 404 when there is none. */
    method RetrieveTravelPlanById(id: int) returns (r: Response<TravelPlan>)
      ensures service.FindById(id).None? ==> r == Response(NOT_FOUND, NoEntity)
      ensures service.FindById(id).Some? ==>
        r.status == OK && r.entity.Body? && r.entity.value.id == Some(id) && r.entity.value in service.crud.rows
    {
      var plan := service.FindById(id);
      if plan.None? {
        r := Response(NOT_FOUND, NoEntity);
      } else {
        r := Response(OK, Body(plan.value));
      }
    }

    /** createTravelPlan: a missing body is a 400 with no entity; otherwise
        the service's create, translated by CreateTravelPlanResponse. */
    method CreateTravelPlan(body: Option<TravelSketch>) returns (r: Response<TravelSketch>)
      requires service.crud.Valid()
      modifies service.http, service.crud
      ensures service.crud.Valid()
      ensures body.None? ==> (r == Response(BAD_REQUEST, NoEntity) &&
        service.http.log == old(service.http.log) && service.crud.rows == old(service.crud.rows))
      ensures body.Some? ==>
        var run := BookingRun(body.value, old(service.http.script));
        service.http.log == old(service.http.log) + run.exchanges &&
        r == CreateTravelPlanResponse(body.value, run.result) &&
        (run.result.Ok? <==> r.status == CREATED) &&
        (run.result.Ok? ==>
          service.crud.rows == old(service.crud.rows) + [run.result.value.(id := Some(old(service.crud.nextId)))]) &&
        (run.result.Err? ==> service.crud.rows == old(service.crud.rows))
    {
      if body.None? {
        r := Response(BAD_REQUEST, NoEntity);
        return;
      }
      var created := service.Create(body.value);
      r := CreateTravelPlanResponse(body.value, created);
    }

    /** deleteTravelPlan: 204 once the plan is found and cancelled. The 404
        raised for an unknown id is thrown inside the try block, so the
        generic handler turns it into 400 keyed "error", and no service call
        is made. A cancel that fails also gives 400. */
    method DeleteTravelPlan(id: int) returns (r: Response<TravelPlan>)
      requires service.crud.Valid()
      modifies service.http, service.crud
      ensures service.crud.Valid()
      ensures old(service.FindById(id)).None? ==> (
        r == ErrorResponse(WebApplication(NOT_FOUND)) &&
        service.http.log == old(service.http.log) && service.crud.rows == old(service.crud.rows))
      ensures old(service.FindById(id)).Some? ==>
        var st := CancelRun(old(service.FindById(id)).value, old(service.http.script));
        service.http.log == old(service.http.log) + st.exchanges &&
        (st.outcome.Pass? ==> r == Response(NO_CONTENT, NoEntity) && service.crud.rows == RemoveId(old(service.crud.rows), id)) &&
        (st.outcome.Fail? ==> r == ErrorResponse(st.outcome.error) && service.crud.rows == old(service.crud.rows))
    {
      var plan := service.FindById(id);
      if plan.None? {
        r := ErrorResponse(WebApplication(NOT_FOUND));
        return;
      }
      var deleted := service.Delete(plan.value);
      if deleted.Err? {
        r := ErrorResponse(deleted.error);
      } else {
        r := Response(NO_CONTENT, NoEntity);
      }
    }
  }
}
