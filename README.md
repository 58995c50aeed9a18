# JBoss-Travel: a Dafny model of the travel agent and the local booking services

JBoss-Travel is a JAX-RS application with two roles.

- It is a **travel agent**. A customer sends a *travel sketch*: a customer id,
  a hotel id, a flight id, a taxi id and a date, any of which may be null. The agent books the hotel and
  then the flight on remote booking services over HTTP. It gives every plan the
  fixed taxi booking id 2 and stores the resulting *travel plan*. If a booking
  fails, the agent deletes the bookings it has already made (the compensating
  *revert*) and rethrows the error. Cancelling a plan deletes both remote
  bookings and then the stored plan.
- It is a **hotel booking service**. It stores hotels, customers and bookings.
  Phone numbers of hotels and emails of customers are unique. A booking needs a
  future date, an existing customer and an existing hotel, and no two bookings
  share a hotel and a date. Each service validates before it writes. Its REST
  layer turns every exception into a status and a JSON map.

The list views of the web client group travel plans and bookings under one
heading per customer (`getHeadings`).

The model is organised like the program:

| file | module | what it holds |
|---|---|---|
| `common.dfy` | `Common` | nullable references, the exceptions as values, violations, responses, createViolationResponse |
| `remote.dfy` | `Remote` | the remote hosts: requests, scripted answers, the shared HTTP client |
| `travel_plan.dfy` | `TravelPlans` | TravelSketch, TravelPlan and its constraints |
| `travel_plan_validator.dfy` | `TravelPlanValidation` | TravelPlanValidator |
| `travel_plan_repository.dfy` | `TravelPlanStore` | TravelPlanRepository as a class over a sequence of rows |
| `travel_plan_service.dfy` | `TravelPlanSaga` | the saga, once as functions of the answer script and once as a class whose methods are proved equal to them |
| `travel_plan_rest.dfy` | `TravelPlanRest` | TravelPlanRESTService |
| `hotel.dfy`, `hotel_validator.dfy`, `hotel_service.dfy` | `Hotels`, `HotelValidation`, `HotelStore` | Hotel, HotelValidator, HotelService, and the catch clauses of createHotel |
| `customer.dfy`, `customer_validator.dfy`, `customer_service.dfy` | `Customers`, `CustomerValidation`, `CustomerStore` | Customer, CustomerValidator, CustomerService, and the catch clauses of createCustomer |
| `booking.dfy`, `booking_validator.dfy`, `booking_service.dfy`, `booking_rest.dfy` | `Bookings`, `BookingValidation`, `BookingStore`, `BookingRest` | Booking, BookingValidator, BookingService, BookingRESTService |
| `headings.dfy` | `Headings` | getHeadings of the two list controllers |

How the model represents the program:

- **Exceptions** are values of `Common.Exc`:
  - `ConstraintViolation` for a ConstraintViolationException;
  - `Validation` for a ValidationException;
  - `WebApplication` for a WebApplicationException;
  - `Other` for any other exception. A NullPointerException is `Other("null")`,
    because its message is null.

  `Result` models a call that returns a value or throws. `Outcome` models one
  that returns nothing or throws.
- **Remote services.** One shared client object answers each request from a
  fixed script of answers and keeps a ghost log of the exchanges.
  - An answer is one of: 201 with an id; 201 whose body has no `id`; any other
    status; or no answer (an I/O error).
  - An exhausted script answers every request with an I/O error.
  - The functions `BookingRun` (with `FlightRun` for its second half),
    `RevertRun` and `CancelRun` state what each saga phase sends and returns
    for every script. The lemmas reason about those
    functions. The methods of `TravelPlanService` are proved to append exactly
    those exchanges to the log and to return those results.
- **Stores.**
  - The travel-plan table is a sequence of rows in ascending id order, which is
    the FIND_ALL order, plus a counter for new ids.
  - The hotel, customer and booking tables are maps from id to record, plus a
    counter.
  - Each store class has a `Valid()` invariant, proved to be kept by every
    write:
    - TravelPlanRepository: every row has an id, the ids strictly ascend, and
      each is below the counter. Stored plans are not required to pass
      validation; the store itself never checks them.
    - HotelService: keys equal ids, ids are below the counter, every stored
      hotel passes its Bean Validation, and no two hotels share a phone number.
    - CustomerService: keys equal ids, ids are below the counter, every stored
      customer passes the Bean Validation function, and no two customers share
      a non-null email.
    - BookingService: keys equal ids, ids are below the counter, every stored
      booking has its customer, hotel and date set, and no two bookings share
      a hotel and a date. The @Future check is not part of it, because it
      depends on the day the booking was written.
- **Dates.** A booking date is a day number. "Today" is a parameter of the
  operations that check `@Future`.
- **Customer constraints.** Customer.java is not part of this model. The
  customer's Bean Validation is therefore a function value, given to
  `CustomerService` when it is built. It must not depend on the id.

Where the sources disagree with each other, the model follows the code that
runs the operation:

- TravelPlan.java declares a `customer` reference, but TravelPlanService and
  TravelPlanRepository call `setCustomerId`/`getCustomerId`. The plan holds a
  customer id.
- TravelSketch.java marks every field @NotNull, but nothing validates a sketch
  (TravelPlanService.java:112 leaves it as an open question). The model lets
  each field be null. A null hotel or flight id throws a NullPointerException
  when that booking's body is built, before its request is sent.
- Booking.java declares `customer` and `hotel` references, but BookingValidator
  calls `getHotelId`/`getCustomerId`. The model reads the id of each reference.
  A null reference raises a NullPointerException where the code dereferences
  it.

## Model

| member | source | states |
|---|---|---|
| Common.SingleMatch | src/main/java/org/jboss/quickstarts/wfk/hotel/HotelValidator.java:87-91 | a single-result query with its NoResultException caught: no match reads as null, one match as found, more than one escapes as a non-unique-result error |
| Common.SingletonMembers | src/main/java/org/jboss/quickstarts/wfk/hotel/HotelValidator.java:93-98 | the one row a unique query finds is the row the id lookup finds, when both match |
| Common.SingleResult | src/main/java/org/jboss/quickstarts/wfk/hotel/HotelService.java:100-102 | a single-result query returns the one matching row; no match raises the no-result error and several the non-unique error |
| Common.ViolationFieldsKeys | src/main/java/org/jboss/quickstarts/wfk/booking/BookingRESTService.java:312-321 | the violation map has exactly one key per violated property path, and no more entries than violations |
| Common.ViolationFieldsLastWins | src/main/java/org/jboss/quickstarts/wfk/booking/BookingRESTService.java:317-319 | each entry of the violation map holds the message of the last violation on that path |
| Common.CreateViolationResponse | src/main/java/org/jboss/quickstarts/wfk/travelagent/travelplan/TravelPlanRESTService.java:198-208 | the loop builds 400 with the map of path to message, one put per violation in order |
| Remote.RemoteHosts.constructor | src/main/java/org/jboss/quickstarts/wfk/travelagent/travelplan/TravelPlanService.java:76-77 | the shared client starts with its script of answers and an empty log |
| Remote.RemoteHosts.Execute | src/main/java/org/jboss/quickstarts/wfk/travelagent/travelplan/TravelPlanService.java:170 | one request gets the next scripted answer, which is consumed and logged with the request |
| TravelPlans.Violations | src/main/java/org/jboss/quickstarts/wfk/travelagent/travelplan/TravelPlan.java:71-81 | a plan is valid exactly when its three booking ids are non-null; each violation is a not-null message on a distinct booking-id path |
| TravelPlans.ViolationPaths | src/main/java/org/jboss/quickstarts/wfk/travelagent/travelplan/TravelPlan.java:71-81 | the reported paths are exactly the booking ids that are null |
| TravelPlans.ViolationsIgnoreIdAndCustomer | src/main/java/org/jboss/quickstarts/wfk/travelagent/travelplan/TravelPlan.java:63-69 | the id and the customer carry no constraint, so they never change the violations |
| TravelPlanValidation.ValidateTravelPlan | src/main/java/org/jboss/quickstarts/wfk/travelagent/travelplan/TravelPlanValidator.java:59-71 | passes exactly when the three booking ids are set, and otherwise throws a constraint violation carrying the bean violations; the email check is switched off |
| TravelPlanValidation.AnyBookingIdsPass | src/main/java/org/jboss/quickstarts/wfk/travelagent/travelplan/TravelPlanValidator.java:59-71 | any values of the three booking ids pass, whatever the id and customer |
| TravelPlanValidation.FailureNamesNullIds | src/main/java/org/jboss/quickstarts/wfk/travelagent/travelplan/TravelPlanValidator.java:61-64 | a failure reports each null booking id on its own path and nothing else |
| TravelPlanStore.Lookup | src/main/java/org/jboss/quickstarts/wfk/travelplan/TravelPlanRepository.java:69-71 | finds a row with that id exactly when one is stored |
| TravelPlanStore.RemoveId | src/main/java/org/jboss/quickstarts/wfk/travelplan/TravelPlanRepository.java:104-118 | keeps exactly the rows whose id differs |
| TravelPlanStore.RemoveIdAscending | src/main/java/org/jboss/quickstarts/wfk/travelplan/TravelPlanRepository.java:101-124 | removal keeps the rows in ascending id order |
| TravelPlanStore.LookupAppended | src/main/java/org/jboss/quickstarts/wfk/travelplan/TravelPlanRepository.java:85-92 | a row appended with a fresh id is what a lookup of that id returns |
| TravelPlanStore.TravelPlanRepository.constructor | src/main/java/org/jboss/quickstarts/wfk/travelplan/TravelPlanRepository.java:58-61 | an empty, ordered table |
| TravelPlanStore.TravelPlanRepository.FindAll | src/main/java/org/jboss/quickstarts/wfk/travelagent/travelplan/TravelPlan.java:44 | every stored plan, in strictly ascending id order |
| TravelPlanStore.TravelPlanRepository.FindById | src/main/java/org/jboss/quickstarts/wfk/travelplan/TravelPlanRepository.java:69-71 | the stored plan with that id, or null exactly when none is stored |
| TravelPlanStore.TravelPlanRepository.Create | src/main/java/org/jboss/quickstarts/wfk/travelplan/TravelPlanRepository.java:85-92 | persist appends the plan with a fresh id, which findById then returns; a plan that already has an id is refused and nothing changes |
| TravelPlanStore.TravelPlanRepository.Delete | src/main/java/org/jboss/quickstarts/wfk/travelplan/TravelPlanRepository.java:101-124 | with an id, the row with that id is gone and the order is kept; without one nothing changes; the argument is returned |
| TravelPlanSaga.PostOutcome | src/main/java/org/jboss/quickstarts/wfk/travelagent/travelplan/TravelPlanService.java:170-179 | a booking succeeds exactly on a 201 whose body has an id, and yields that id; any other status fails with the service's message, a body without an id fails when it is read, no answer propagates the I/O error |
| TravelPlanSaga.DeleteStep | src/main/java/org/jboss/quickstarts/wfk/travelagent/travelplan/TravelPlanService.java:215-222 | a DELETE sends one request and succeeds whatever status comes back; only a missing answer fails it |
| TravelPlanSaga.RevertRun | src/main/java/org/jboss/quickstarts/wfk/travelagent/travelplan/TravelPlanService.java:204-240 | revert deletes only the booking ids that are set, each with its own id: nothing when neither is set, one DELETE when one is; with both set, the hotel DELETE goes first, a hotel DELETE without an answer stops the revert, and otherwise the flight DELETE follows and decides the outcome; never to the taxi service |
| TravelPlanSaga.Compensate | src/main/java/org/jboss/quickstarts/wfk/travelagent/travelplan/TravelPlanService.java:123-128 | the catch block always ends in an exception, adds only DELETEs (at most two) after what was already sent, and rethrows the caught exception unless a DELETE got no answer, whose I/O error replaces it |
| TravelPlanSaga.BookingRun | src/main/java/org/jboss/quickstarts/wfk/travelagent/travelplan/TravelPlanService.java:111-128 | the try block succeeds exactly when the sketch has a hotel id and a flight id and both POSTs return 201 with an id, and then yields the plan with the sketch's customer id, those booking ids, taxi id 2 and no id, after exactly the hotel POST and the flight POST; every POST carries customer 18181, the sketch's id for that host and its date (null written as "null"); every failure is a plain exception; the taxi service is never contacted |
| TravelPlanSaga.FlightRun | src/main/java/org/jboss/quickstarts/wfk/travelagent/travelplan/TravelPlanService.java:120-128 | once the hotel booking is made, the rest of the try block succeeds exactly when the sketch has a flight id and the flight POST returns 201 with an id, and then yields the plan with the sketch's customer id, the hotel and flight booking ids, taxi id 2 and no id, after exactly that one POST; every failure is a plain exception, and the taxi service is never contacted |
| TravelPlanSaga.NullHotelIdSendsNothing | src/main/java/org/jboss/quickstarts/wfk/travelagent/travelplan/TravelPlanService.java:167 | a sketch without a hotel id throws a NullPointerException while the hotel body is built: nothing is sent and nothing is deleted |
| TravelPlanSaga.HotelFailureSendsNoDelete | src/main/java/org/jboss/quickstarts/wfk/travelagent/travelplan/TravelPlanService.java:118-127 | once the hotel POST is sent, a failed hotel booking sends nothing more, no DELETE, and rethrows the hotel error |
| TravelPlanSaga.HotelWithoutIdOrphaned | src/main/java/org/jboss/quickstarts/wfk/travelagent/travelplan/TravelPlanService.java:175-177 | a 201 without an id leaves the remote hotel booking in place: no DELETE is sent for it |
| TravelPlanSaga.FlightFailureDeletesHotelOnly | src/main/java/org/jboss/quickstarts/wfk/travelagent/travelplan/TravelPlanService.java:120-127 | once the flight POST is sent, a failed flight booking sends exactly one DELETE, for the hotel booking, and rethrows the flight error unless that DELETE gets no answer |
| TravelPlanSaga.NullFlightIdDeletesHotel | src/main/java/org/jboss/quickstarts/wfk/travelagent/travelplan/TravelPlanService.java:189 | a sketch without a flight id, after a 201 from the hotel service, sends exactly the hotel POST and one DELETE of that hotel booking, and rethrows the NullPointerException unless the DELETE gets no answer |
| TravelPlanSaga.AtMostOneCompensation | src/main/java/org/jboss/quickstarts/wfk/travelagent/travelplan/TravelPlanService.java:116-128 | whatever the answers, create sends at most one compensating DELETE, and only to the hotel service |
| TravelPlanSaga.BookedPlanCommits | src/main/java/org/jboss/quickstarts/wfk/travelagent/travelplan/TravelPlanService.java:133-154 | a plan that leaves the try block passes validation and has no id, so it is always persisted |
| TravelPlanSaga.CancelRun | src/main/java/org/jboss/quickstarts/wfk/travelagent/travelplan/TravelPlanService.java:249-282 | cancelling sends the hotel DELETE and then the flight DELETE with the ids as they are, null included, never contacts the taxi service, and fails only on a missing answer, which stops the sequence |
| TravelPlanSaga.TravelPlanService.constructor | src/main/java/org/jboss/quickstarts/wfk/travelagent/travelplan/TravelPlanService.java:76-77 | the service holds the store and the shared client |
| TravelPlanSaga.TravelPlanService.FindById | src/main/java/org/jboss/quickstarts/wfk/travelagent/travelplan/TravelPlanService.java:98-100 | the stored plan with that id, or null exactly when none is stored |
| TravelPlanSaga.TravelPlanService.SendBooking | src/main/java/org/jboss/quickstarts/wfk/travelagent/travelplan/TravelPlanService.java:166-179 | sends one POST, logs it, and returns the outcome of PostOutcome for the answer |
| TravelPlanSaga.TravelPlanService.BookHotel | src/main/java/org/jboss/quickstarts/wfk/travelagent/travelplan/TravelPlanService.java:157-180 | a null hotel id throws a NullPointerException before anything is sent; otherwise the hotel POST with customer 18181, the hotel id and the date, failing with "Failed to create a hotel booking" on any status but 201 |
| TravelPlanSaga.TravelPlanService.BookFlight | src/main/java/org/jboss/quickstarts/wfk/travelagent/travelplan/TravelPlanService.java:182-202 | a null flight id throws a NullPointerException before anything is sent; otherwise the flight POST with customer 18181, the flight id and the date, failing with "Failed to create a flight booking" on any status but 201 |
| TravelPlanSaga.TravelPlanService.SendDelete | src/main/java/org/jboss/quickstarts/wfk/travelagent/travelplan/TravelPlanService.java:215-222 | sends one DELETE and returns what DeleteStep says |
| TravelPlanSaga.TravelPlanService.Revert | src/main/java/org/jboss/quickstarts/wfk/travelagent/travelplan/TravelPlanService.java:204-240 | sends exactly the requests RevertRun lists and returns its outcome |
| TravelPlanSaga.TravelPlanService.Book | src/main/java/org/jboss/quickstarts/wfk/travelagent/travelplan/TravelPlanService.java:112-128 | sends exactly the requests BookingRun lists and returns its result |
| TravelPlanSaga.TravelPlanService.BookFlightAndTaxi | src/main/java/org/jboss/quickstarts/wfk/travelagent/travelplan/TravelPlanService.java:120-128 | sends exactly the requests FlightRun lists and returns its result |
| TravelPlanSaga.TravelPlanService.Commit | src/main/java/org/jboss/quickstarts/wfk/travelagent/travelplan/TravelPlanService.java:133-154 | an invalid plan is refused with its violations and nothing is stored; a valid plan without an id is appended with a fresh id; one with an id is refused by persist |
| TravelPlanSaga.TravelPlanService.Create | src/main/java/org/jboss/quickstarts/wfk/travelagent/travelplan/TravelPlanService.java:111-155 | create sends what BookingRun says; a failed booking leaves the store unchanged and rethrows; a successful one always stores the plan under a fresh id and returns it |
| TravelPlanSaga.TravelPlanService.Delete | src/main/java/org/jboss/quickstarts/wfk/travelagent/travelplan/TravelPlanService.java:249-297 | delete sends what CancelRun says; a missing answer leaves the store unchanged; otherwise a plan with an id is removed and returned, and a plan without one gives null |
| TravelPlanRest.ErrorResponse | src/main/java/org/jboss/quickstarts/wfk/travelagent/travelplan/TravelPlanRESTService.java:144-149 | the generic handler: 400 with exactly one key, "error", holding the exception's message |
| TravelPlanRest.CreateTravelPlanResponse | src/main/java/org/jboss/quickstarts/wfk/travelagent/travelplan/TravelPlanRESTService.java:126-150 | success is 201 with the submitted sketch; a constraint violation is 400 keyed by the violated paths; a validation error is 409 keyed "email"; anything else is 400 keyed "error" |
| TravelPlanRest.CreateFailureIsBadRequest | src/main/java/org/jboss/quickstarts/wfk/travelagent/travelplan/TravelPlanRESTService.java:144-149 | every failure of create, booking errors included, reaches the client as 400 with the single key "error" |
| TravelPlanRest.TravelPlanRESTService.constructor | src/main/java/org/jboss/quickstarts/wfk/travelagent/travelplan/TravelPlanRESTService.java:77-78 | the REST service holds the travel-plan service |
| TravelPlanRest.TravelPlanRESTService.RetrieveTravelPlanById | src/main/java/org/jboss/quickstarts/wfk/travelagent/travelplan/TravelPlanRESTService.java:99-107 | 200 with the stored plan of that id, or 404 when there is none |
| TravelPlanRest.TravelPlanRESTService.CreateTravelPlan | src/main/java/org/jboss/quickstarts/wfk/travelagent/travelplan/TravelPlanRESTService.java:118-153 | a missing body is 400 and nothing is sent; otherwise the status is 201 exactly when the booking run succeeds, and then the booked plan is appended under the next fresh id; a failure leaves the store unchanged |
| TravelPlanRest.TravelPlanRESTService.DeleteTravelPlan | src/main/java/org/jboss/quickstarts/wfk/travelagent/travelplan/TravelPlanRESTService.java:165-189 | an unknown id is 400 keyed "error" (the 404 is caught by the generic handler) and nothing is sent; a known one sends what CancelRun says and is 204 with the plan removed, or 400 and unchanged when a DELETE gets no answer |
| Hotels.FieldViolations | src/main/java/org/jboss/quickstarts/wfk/hotel/Hotel.java:67-82 | a nullable string field with NotNull, Size and Pattern has no violation exactly when it is present, within its bounds and matches; every violation is on that field's path |
| Hotels.HotelViolations | src/main/java/org/jboss/quickstarts/wfk/hotel/Hotel.java:67-82 | a hotel is valid exactly when its name, postcode and phone number are; violations are only on those three paths |
| Hotels.ViolationPathsExact | src/main/java/org/jboss/quickstarts/wfk/hotel/Hotel.java:67-82 | each of the three paths is reported exactly when that field is invalid |
| Hotels.GoodHotelAccepted | src/test/java/org/jboss/quickstarts/wfk/hotel/AddHotelTest.java:104-107 | the hotel the registration test expects to be created has no violation |
| Hotels.LongNameRejected | src/test/java/org/jboss/quickstarts/wfk/hotel/AddHotelTest.java:148-151 | a 55-character name breaks the size bound |
| Hotels.BadPhonesRejected | src/test/java/org/jboss/quickstarts/wfk/hotel/AddHotelTest.java:162-179 | thirteen digits, or letters among the digits, break the phone pattern |
| Hotels.AmpersandPostcodeRejected | src/test/java/org/jboss/quickstarts/wfk/hotel/AddHotelTest.java:190-193 | an ampersand fits neither postcode alternative |
| Hotels.NameRangeQuirk | src/main/java/org/jboss/quickstarts/wfk/hotel/Hotel.java:69 | because ` -'` in the name class is a character range, a hyphenated name is rejected while "!" and "&" are accepted |
| Hotels.StringLeTotal | src/main/java/org/jboss/quickstarts/wfk/hotel/Hotel.java:42 | the ORDER BY of FIND_ALL only: the name order compares any two names |
| Hotels.StringLeTransitive | src/main/java/org/jboss/quickstarts/wfk/hotel/Hotel.java:42 | the ORDER BY of FIND_ALL only: the name order is transitive |
| Hotels.StringLeAntisymmetric | src/main/java/org/jboss/quickstarts/wfk/hotel/Hotel.java:42 | the ORDER BY of FIND_ALL only: names that are ordered both ways are equal |
| Hotels.AdjacentOrderSuffices | src/main/java/org/jboss/quickstarts/wfk/hotel/Hotel.java:42 | the ORDER BY of FIND_ALL only: a listing whose every name is at most the next one is ordered by name throughout |
| HotelValidation.PhoneNumberAlreadyExists | src/main/java/org/jboss/quickstarts/wfk/hotel/HotelValidator.java:84-104 | the number is taken when some hotel has it, unless the stored hotel of the given id has it itself; a stored hotel of that id without a number throws a NullPointerException; several matches escape as a non-unique error |
| HotelValidation.ValidateHotel | src/main/java/org/jboss/quickstarts/wfk/hotel/HotelValidator.java:59-71 | bean violations come first; a valid hotel passes exactly when its number is not taken, and a taken number raises "Unique Phone Number Violation"; an exception from the uniqueness query (the NullPointerException or the non-unique error) propagates as the failure |
| HotelValidation.ValidatedPhoneIsFree | src/main/java/org/jboss/quickstarts/wfk/hotel/HotelValidator.java:59-104 | a hotel that passes has a phone number that no stored hotel other than itself has |
| HotelValidation.DuplicatePhoneRefused | src/main/java/org/jboss/quickstarts/wfk/hotel/HotelValidator.java:67-70 | a new valid hotel with a taken number is refused with the uniqueness error |
| HotelStore.StoreValidated | src/main/java/org/jboss/quickstarts/wfk/hotel/HotelService.java:125-153 | writing a validated hotel, under its own stored id or under a fresh one, keeps the table invariant (valid rows, unique numbers) |
| HotelStore.PhoneCheckNeverThrows | src/main/java/org/jboss/quickstarts/wfk/hotel/HotelValidator.java:84-104 | in a consistent table at most one hotel has any number, and the uniqueness check always answers: it never raises the non-unique error or dereferences a null number |
| HotelStore.CreateHotelResponse | src/main/java/org/jboss/quickstarts/wfk/hotel/HotelRESTService.java:139-176 | success is 201 with the hotel; a constraint violation is 400 keyed by the violated paths; a validation error is 409 keyed "phoneNumber"; anything else is 400 keyed "error" |
| HotelStore.HotelService.constructor | src/main/java/org/jboss/quickstarts/wfk/hotel/HotelService.java:52-56 | an empty hotel table satisfies the invariant |
| HotelStore.HotelService.FindById | src/main/java/org/jboss/quickstarts/wfk/hotel/HotelService.java:76-78 | the stored hotel with that id, or null exactly when none is stored |
| HotelStore.HotelService.FindByFirstName | src/main/java/org/jboss/quickstarts/wfk/hotel/HotelService.java:100-102 | succeeds exactly when one stored hotel has that name, and returns it; no match and several matches escape as errors |
| HotelStore.HotelService.Create | src/main/java/org/jboss/quickstarts/wfk/hotel/HotelService.java:125-134 | an invalid hotel is refused and nothing changes; a valid one without an id is stored under a fresh id and returned; one with an id is refused by persist |
| HotelStore.HotelService.Update | src/main/java/org/jboss/quickstarts/wfk/hotel/HotelService.java:145-153 | after validation, merge overwrites the stored row of that id, or inserts a copy under a fresh id; the argument is returned and the invariant is kept |
| HotelStore.DuplicatePhoneConflict | src/test/java/org/jboss/quickstarts/wfk/hotel/AddHotelTest.java:128-141 | registering a second hotel with a taken number is 409 with exactly one entry |
| HotelStore.OwnPhoneAccepted | src/main/java/org/jboss/quickstarts/wfk/hotel/HotelValidator.java:93-98 | in a consistent table, a valid hotel that keeps its own stored number passes, so an update never clashes with itself |
| CustomerValidation.EmailAlreadyExists | src/main/java/org/jboss/quickstarts/wfk/customer/CustomerValidator.java:84-104 | the email is taken when some customer has it, unless the stored customer of the given id has it itself; a stored customer of that id without an email throws a NullPointerException; several matches escape as a non-unique error |
| CustomerValidation.ValidateCustomer | src/main/java/org/jboss/quickstarts/wfk/customer/CustomerValidator.java:59-71 | bean violations come first; a valid customer passes exactly when its email is not taken, and a taken email raises "Unique Email Violation"; an exception from the uniqueness query (the NullPointerException or the non-unique error) propagates as the failure |
| CustomerValidation.ValidatedEmailIsFree | src/main/java/org/jboss/quickstarts/wfk/customer/CustomerValidator.java:59-104 | a customer that passes has no bean violation, and no stored customer other than itself has its email |
| CustomerValidation.DuplicateEmailRefused | src/main/java/org/jboss/quickstarts/wfk/customer/CustomerValidator.java:67-70 | a new valid customer with a taken email is refused with the uniqueness error |
| CustomerStore.StoreValidated | src/main/java/org/jboss/quickstarts/wfk/customer/CustomerService.java:127-155 | writing a validated customer, under its own stored id or under a fresh one, keeps the table invariant (valid rows, unique emails) |
| CustomerStore.EmailMatchesAtMostOne | src/main/java/org/jboss/quickstarts/wfk/customer/CustomerValidator.java:84-104 | in a consistent table at most one customer has any email, so the uniqueness check never raises the non-unique error |
| CustomerStore.CreateCustomerResponse | src/main/java/org/jboss/quickstarts/wfk/customer/CustomerRESTService.java:139-176 | success is 201 with the customer; a constraint violation is 400 keyed by the violated paths; a validation error is 409 keyed "email"; anything else is 400 keyed "error" |
| CustomerStore.DuplicateEmailConflict | src/test/java/org/jboss/quickstarts/wfk/customer/AddCustomerTest.java:122-135 | registering a second customer with a taken email is 409 with exactly one entry |
| CustomerStore.OwnEmailAccepted | src/main/java/org/jboss/quickstarts/wfk/customer/CustomerValidator.java:93-98 | in a consistent table, a valid customer that keeps its own stored email passes, so an update never clashes with itself |
| CustomerStore.CustomerService.constructor | src/main/java/org/jboss/quickstarts/wfk/customer/CustomerService.java:54-58 | an empty customer table satisfies the invariant for constraints that ignore the id |
| CustomerStore.CustomerService.FindById | src/main/java/org/jboss/quickstarts/wfk/customer/CustomerService.java:78-80 | the stored customer with that id, or null exactly when none is stored |
| CustomerStore.CustomerService.FindByLastName | src/main/java/org/jboss/quickstarts/wfk/customer/CustomerService.java:114-116 | as written it runs the first-name query: it succeeds exactly when one stored customer has that FIRST name, and returns it |
| CustomerStore.CustomerService.Create | src/main/java/org/jboss/quickstarts/wfk/customer/CustomerService.java:127-136 | an invalid customer is refused and nothing changes; a valid one without an id is stored under a fresh id and returned; one with an id is refused by persist |
| CustomerStore.CustomerService.Update | src/main/java/org/jboss/quickstarts/wfk/customer/CustomerService.java:147-155 | after validation, merge overwrites the stored row of that id, or inserts a copy under a fresh id; the argument is returned and the invariant is kept |
| Bookings.CalendarDate | src/main/java/org/jboss/quickstarts/wfk/booking/Booking.java:95 | the truncation of @Temporal(DATE) only: an instant lies within the day it is stored as; the bookings themselves carry day numbers |
| Bookings.BookingViolations | src/main/java/org/jboss/quickstarts/wfk/booking/Booking.java:92-96 | a booking is valid exactly when its date is present and after today; a null date reports only the not-null message, a past date only the future message, both on "bookingDate" |
| Bookings.InsertInListing | src/main/java/org/jboss/quickstarts/wfk/booking/Booking.java:59 | the ORDER BY of FIND_ALL only: inserting into an ordered listing keeps it ordered and adds exactly that booking |
| Bookings.ListAll | src/main/java/org/jboss/quickstarts/wfk/booking/Booking.java:59 | the ORDER BY of FIND_ALL only, over any sequence of bookings: the listing holds each booking as often as the input and is ordered by hotel id, then customer id, then date |
| BookingValidation.BookingAlreadyExists | src/main/java/org/jboss/quickstarts/wfk/booking/BookingValidator.java:105-125 | the hotel and date are taken when some booking has them, unless the stored booking of the given id has both itself; its null hotel, then its null date, throw a NullPointerException; several matches escape as a non-unique error |
| BookingValidation.CustomerExists | src/main/java/org/jboss/quickstarts/wfk/booking/BookingValidator.java:134-142 | the customer lookup by id finds a row; a miss, null or NoResultException, reads as absent (see ExistenceChecksAreLookups) |
| BookingValidation.HotelExists | src/main/java/org/jboss/quickstarts/wfk/booking/BookingValidator.java:151-159 | the hotel lookup by id finds a row; a miss, null or NoResultException, reads as absent (see ExistenceChecksAreLookups) |
| BookingValidation.ValidateBooking | src/main/java/org/jboss/quickstarts/wfk/booking/BookingValidator.java:71-95 | bean violations, then a null hotel, then the hotel-and-date clash, then a null or unknown customer, then an unknown hotel: the first that applies decides the error; otherwise it passes |
| BookingValidation.ValidatedBookingFacts | src/main/java/org/jboss/quickstarts/wfk/booking/BookingValidator.java:71-95 | a booking that passes has a future date, an existing customer and hotel, and shares its hotel and date with no stored booking but its own |
| BookingValidation.DuplicateBookingRefused | src/main/java/org/jboss/quickstarts/wfk/booking/BookingValidator.java:80-82 | a new booking for a taken hotel and date is refused with "Date/Hotel combination already exists", whatever the customer and hotel tables hold |
| BookingStore.StoreValidated | src/main/java/org/jboss/quickstarts/wfk/booking/BookingService.java:100-127 | writing a validated booking, under its own stored id or under a fresh one, keeps the table invariant (complete rows, unique hotel and date) |
| BookingStore.HotelDateCheckNeverThrows | src/main/java/org/jboss/quickstarts/wfk/booking/BookingValidator.java:105-125 | in a consistent table at most one booking holds any hotel and date, and the uniqueness check always answers: it never raises the non-unique error or dereferences a null hotel or date |
| BookingStore.ExistenceChecksAreLookups | src/main/java/org/jboss/quickstarts/wfk/booking/BookingValidator.java:134-159 | the validator's customer and hotel existence checks hold exactly when the customer and hotel services' findById returns a row |
| BookingStore.BookingService.constructor | src/main/java/org/jboss/quickstarts/wfk/booking/BookingService.java:53-57 | an empty booking table beside the given customer and hotel services |
| BookingStore.BookingService.FindById | src/main/java/org/jboss/quickstarts/wfk/booking/BookingService.java:77-79 | the stored booking with that id, or null exactly when none is stored |
| BookingStore.BookingService.Create | src/main/java/org/jboss/quickstarts/wfk/booking/BookingService.java:100-108 | the log line fails on a null customer or hotel; then an invalid booking is refused and nothing changes; a valid one without an id is stored under a fresh id; one with an id is refused by persist |
| BookingStore.BookingService.Update | src/main/java/org/jboss/quickstarts/wfk/booking/BookingService.java:119-127 | after validation, merge overwrites the stored row of that id, or inserts a copy under a fresh id; the argument is returned and the invariant is kept |
| BookingStore.BookingService.Delete | src/main/java/org/jboss/quickstarts/wfk/booking/BookingService.java:136-148 | a booking without an id is not deleted and null is returned; otherwise the record of that id is removed and the booking returned |
| BookingRest.ConflictFields | src/main/java/org/jboss/quickstarts/wfk/booking/BookingRESTService.java:180-191 | the 409 body has one entry chosen by the message's prefix, tested in source order, or no entry when no prefix fits |
| BookingRest.ValidatorMessagesKeyed | src/main/java/org/jboss/quickstarts/wfk/booking/BookingRESTService.java:181-190 | each of the three validator messages lands on its own key |
| BookingRest.OutcomeResponse | src/main/java/org/jboss/quickstarts/wfk/booking/BookingRESTService.java:165-198 | success has the given status and the booking; a constraint violation is 400 keyed by the violated paths; a validation error is 409 with ConflictFields; anything else is 400 keyed "error" |
| BookingRest.PastDateIsBadRequest | src/test/java/org/jboss/quickstarts/wfk/booking/AddBookingTest.java:160-165 | a booking dated today or earlier is 400 with the single entry "bookingDate" holding the future message |
| BookingRest.ValidationConflictsHaveOneKey | src/main/java/org/jboss/quickstarts/wfk/booking/BookingRESTService.java:177-191 | every validation error the validator raises becomes 409 with exactly one key |
| BookingRest.BookingRESTService.constructor | src/main/java/org/jboss/quickstarts/wfk/booking/BookingRESTService.java:75-76 | the REST service holds the booking service |
| BookingRest.BookingRESTService.CreateBooking | src/main/java/org/jboss/quickstarts/wfk/booking/BookingRESTService.java:157-201 | a missing body or a null customer or hotel fails in the first log line, before the null check, as 500; otherwise the service's create is answered with OutcomeResponse and 201 for success |
| BookingRest.BookingRESTService.UpdateBooking | src/main/java/org/jboss/quickstarts/wfk/booking/BookingRESTService.java:213-267 | a missing body is 400; a null reference or id is 500; a body id other than the path id is 409 with "The booking ID cannot be modified"; an unknown id is 404; none of them writes; otherwise the service's update with OutcomeResponse and 200 for success |
| BookingRest.BookingRESTService.DeleteBooking | src/main/java/org/jboss/quickstarts/wfk/booking/BookingRESTService.java:279-303 | an unknown id is 400 keyed "error" with the 404 message and nothing changes; a known one is 204 and its record is removed |
| Headings.Filter | src/main/webapp/app/travelPlanList/travelPlanList.controller.js:46-52 | the records filed under one heading: all of them carry that heading |
| Headings.GroupIsFilter | src/main/webapp/app/travelPlanList/travelPlanList.controller.js:34-55 | there is a heading for each customer that occurs and no other, and each heading lists exactly that customer's records in input order |
| Headings.FilterMember | src/main/webapp/app/travelPlanList/travelPlanList.controller.js:48-52 | a heading with a record under it occurs among the input's headings |
| Headings.FirstOccurrenceStartsList | src/main/webapp/app/travelPlanList/travelPlanList.controller.js:50-51 | a record whose heading is new starts a list holding only itself |
| Headings.GroupSizesSum | src/main/webapp/app/travelPlanList/travelPlanList.controller.js:36-53 | every record is filed exactly once: the list lengths add up to the number of records |
| Headings.GetHeadings | src/main/webapp/app/travelPlanList/travelPlanList.controller.js:34-55 | the loop builds exactly the grouping Group describes, hence what GroupIsFilter and GroupSizesSum state; no records give no headings |
| Headings.NatToString | src/main/webapp/app/travelPlanList/travelPlanList.controller.js:46 | a non-negative id is written as a non-empty string of decimal digits |
| Headings.NatToStringInjective | src/main/webapp/app/travelPlanList/travelPlanList.controller.js:46 | different ids are written differently |
| Headings.DistinctIdsDistinctHeadings | src/main/webapp/app/travelPlanList/travelPlanList.controller.js:46 | customers with the same name but different ids get different headings |
| Headings.TravelPlanHeadings | src/main/webapp/app/travelPlanList/travelPlanList.controller.js:34-55 | the travel-plan list view groups plans by their customer's heading |
| Headings.BookingHeadings | src/main/webapp/app/bookingList/bookingList.controller.js:34-55 | the booking list view groups bookings by their customer's heading |

## Left out

- HTTP transport, URIs, JSON bodies and status lines: a remote service is
  represented only by the scripted answer it gives; headers and host names are
  not modelled.
- The text of an I/O error comes from the HTTP client library. The model uses
  the placeholder "I/O error" for it.
- FlightService, TaxiService and their REST services are not part of this
  model. The travel agent never calls the taxi service, and the lemmas state
  that it is never contacted.
- src/main/java/org/jboss/quickstarts/wfk/travelplan/TravelPlanService.java is
  an older copy of the repository's service. It is not part of this model.
- Customer.java is not part of this model. Its Bean Validation constraints
  enter as a function parameter (`CustomerStore.CustomerService.bean`).
- BookingRepository.java is not part of this model. Its delete is assumed to
  remove the row with the booking's id, as TravelPlanRepository's does.
- HotelRepository and CustomerRepository internals are modelled only through
  what they do to the table: persist, which gives a fresh id or refuses a
  detached entity, and merge.
- Database failures at persist or merge, other than a detached entity, are not
  modelled. Neither are transactions, the container or injection.
- The customer and hotel of a booking are carried as ids. A non-null
  reference whose id is null is not modelled.
- Time of day and time zones: a booking date is a day number, and "today" is
  a parameter. `Bookings.CalendarDate` states only the truncation to days.
- ORDER BY placement of null keys: stored bookings and hotels always have their
  keys, so the default key of an absent value is never compared.
- The iteration order of the violation set is not known. Violations are a
  sequence in a fixed order, so map entries on the same path keep the last one.
- Logging, apart from the log lines whose null dereferences decide an outcome.
  BookingRESTService.java:293 can only dereference a complete stored booking,
  which the booking store invariant guarantees.
- HotelRESTService and CustomerRESTService are modelled only for the catch
  clauses of create (`HotelStore.CreateHotelResponse`,
  `CustomerStore.CreateCustomerResponse`). They are context for the services,
  not part of the core.
- The retrieve-all, retrieve-by-email and retrieve-by-customer endpoints, and
  BookingService.findByCustomerId, are not modelled. Only the travel-plan
  FIND_ALL order is a property of a store
  (`TravelPlanStore.TravelPlanRepository.FindAll`). The booking and hotel
  FIND_ALL orders are stated only as orders on any sequence (`Bookings.ListAll`,
  `Bookings.InsertInListing`, `Hotels.StringLeTotal` and its neighbours,
  `Hotels.AdjacentOrderSuffices`). They are not tied to the stored tables, because no
  listing operation of those services is modelled.
- `Bookings.CalendarDate` is not used by the stores: a booking is stored with a
  day number directly.
- The entity counts that AddHotelTest and AddBookingTest expect for an invalid
  hotel or booking (four entries) are not what the code produces. The model
  follows the code: one entry per violated path
  (`Common.ViolationFieldsKeys`, `BookingRest.PastDateIsBadRequest`).
- JavaScript's conversion of arbitrary values to strings: the heading is
  modelled for an integer or null id and for a present or absent name. The
  Angular wiring ($watch, $filter, the resource queries) is not modelled.
- Hotels.StringLeTotal: strings are compared character by character. Database
  collation is not modelled.
