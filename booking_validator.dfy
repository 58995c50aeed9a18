/** BookingValidator: Bean Validation, then (hotel, date) uniqueness, then
    that the customer exists, then that the hotel exists. The first check
    that fails decides the error. */
module BookingValidation {
  import opened Common
  import opened Bookings

  const DATE_HOTEL_MESSAGE := "Date/Hotel combination already exists"
  const CUSTOMER_MESSAGE := "Customer ID does not exist in the database"
  const HOTEL_MESSAGE := "Hotel ID does not exist in the database"

  /** bookingAlreadyExists: some booking has that hotel and date, unless the
      stored booking with the given id has both itself. The comparison
      dereferences that booking's hotel and then its date. */
  function BookingAlreadyExists(bookings: map<int, Booking>, hotelId: int, date: Date, id: Option<int>): (r: Result<bool>)
    ensures FindByHotelAndDate(bookings, hotelId, date) == {} ==> r == Ok(false)
    ensures |FindByHotelAndDate(bookings, hotelId, date)| > 1 ==> r == Err(Other(NON_UNIQUE_MESSAGE))
    ensures |FindByHotelAndDate(bookings, hotelId, date)| == 1 && id.None? ==> r == Ok(true)
    ensures |FindByHotelAndDate(bookings, hotelId, date)| == 1 && id.Some? && id.value !in bookings ==> r == Ok(true)
    ensures |FindByHotelAndDate(bookings, hotelId, date)| == 1 && id.Some? && id.value in bookings ==>
      var own := bookings[id.value];
      (own.hotelId.None? ==> r == Err(Other(NULL_POINTER_MESSAGE))) &&
      (own.hotelId.Some? && own.hotelId.value != hotelId ==> r == Ok(true)) &&
      (own.hotelId == Some(hotelId) && own.bookingDate.None? ==> r == Err(Other(NULL_POINTER_MESSAGE))) &&
      (own.hotelId == Some(hotelId) && own.bookingDate.Some? ==> r == Ok(own.bookingDate.value != date))
  {
    match SingleMatch(FindByHotelAndDate(bookings, hotelId, date))
    case Err(e) => Err(e)
    case Ok(found) =>
      if !found || id.None? || id.value !in bookings then Ok(found)
      else
        var own := bookings[id.value];
        if own.hotelId.None? then Err(Other(NULL_POINTER_MESSAGE))
        else if own.hotelId.value != hotelId then Ok(true)
        else if own.bookingDate.None? then Err(Other(NULL_POINTER_MESSAGE))
        else Ok(own.bookingDate.value != date)
  }

  /** customerExists: the lookup by id finds a customer. */
  predicate CustomerExists<C>(customers: map<int, C>, customerId: int) {
    customerId in customers
  }

  /** hotelExists: the lookup by id finds a hotel. */
  predicate HotelExists<H>(hotels: map<int, H>, hotelId: int) {
    hotelId in hotels
  }

  /** validateBooking: each check runs only once the earlier ones have
      passed. A null hotel or customer reference is dereferenced when its id
      is read, which raises a NullPointerException. */
  function ValidateBooking<C, H>(b: Booking, bookings: map<int, Booking>, customers: map<int, C>, hotels: map<int, H>,
                                 today: Date): (r: Outcome)
    ensures BookingViolations(b, today) != [] ==> r == Fail(ConstraintViolation(BookingViolations(b, today)))
    ensures BookingViolations(b, today) == [] && b.hotelId.None? ==> r == Fail(Other(NULL_POINTER_MESSAGE))
    ensures BookingViolations(b, today) == [] && b.hotelId.Some? ==>
      var clash := BookingAlreadyExists(bookings, b.hotelId.value, b.bookingDate.value, b.id);
      (clash.Err? ==> r == Fail(clash.error)) &&
      (clash == Ok(true) ==> r == Fail(Validation(DATE_HOTEL_MESSAGE))) &&
      (clash == Ok(false) && b.customerId.None? ==> r == Fail(Other(NULL_POINTER_MESSAGE))) &&
      (clash == Ok(false) && b.customerId.Some? && !CustomerExists(customers, b.customerId.value) ==>
        r == Fail(Validation(CUSTOMER_MESSAGE))) &&
      (clash == Ok(false) && b.customerId.Some? && CustomerExists(customers, b.customerId.value) ==>
        (r.Pass? <==> HotelExists(hotels, b.hotelId.value)) &&
        (r.Fail? ==> r == Fail(Validation(HOTEL_MESSAGE))))
  {
    var vs := BookingViolations(b, today);
    if vs != [] then Fail(ConstraintViolation(vs))
    else if b.hotelId.None? then Fail(Other(NULL_POINTER_MESSAGE))
    else
      match BookingAlreadyExists(bookings, b.hotelId.value, b.bookingDate.value, b.id)
      case Err(e) => Fail(e)
      case Ok(clash) =>
        if clash then Fail(Validation(DATE_HOTEL_MESSAGE))
        else if b.customerId.None? then Fail(Other(NULL_POINTER_MESSAGE))
        else if !CustomerExists(customers, b.customerId.value) then Fail(Validation(CUSTOMER_MESSAGE))
        else if !HotelExists(hotels, b.hotelId.value) then Fail(Validation(HOTEL_MESSAGE))
        else Pass
  }

  /** What a booking that passes validation satisfies: a future date, an
      existing customer and hotel, and no stored booking other than its own
      record on the same hotel and date. */
  lemma {:induction false} ValidatedBookingFacts<C, H>(b: Booking, bookings: map<int, Booking>, customers: map<int, C>,
                                                      hotels: map<int, H>, today: Date)
    requires ValidateBooking(b, bookings, customers, hotels, today).Pass?
    ensures b.bookingDate.Some? && b.bookingDate.value > today
    ensures b.customerId.Some? && b.customerId.value in customers
    ensures b.hotelId.Some? && b.hotelId.value in hotels
    ensures forall k :: k in bookings && bookings[k].hotelId == b.hotelId && bookings[k].bookingDate == b.bookingDate ==>
      b.id == Some(k)
  {
    var matches := FindByHotelAndDate(bookings, b.hotelId.value, b.bookingDate.value);
    forall k | k in bookings && bookings[k].hotelId == b.hotelId && bookings[k].bookingDate == b.bookingDate
      ensures b.id == Some(k)
    {
      assert k in matches;
      assert |matches| == 1;
      var id := b.id.value;
      assert id in bookings && bookings[id].hotelId == b.hotelId && bookings[id].bookingDate == b.bookingDate;
      assert id in matches;
      SingletonMembers(matches, k, id);
    }
  }

  /** A new booking (no id) for a taken hotel and date is refused with the
      uniqueness error, whatever the customer and hotel tables hold. */
  lemma DuplicateBookingRefused<C, H>(b: Booking, bookings: map<int, Booking>, customers: map<int, C>,
                                      hotels: map<int, H>, today: Date, k: int)
    requires BookingViolations(b, today) == [] && b.id.None? && b.hotelId.Some?
    requires k in bookings && bookings[k].hotelId == b.hotelId && bookings[k].bookingDate == b.bookingDate
    requires forall j :: j in bookings && j != k ==> !(bookings[j].hotelId == b.hotelId && bookings[j].bookingDate == b.bookingDate)
    ensures ValidateBooking(b, bookings, customers, hotels, today) == Fail(Validation(DATE_HOTEL_MESSAGE))
  {
    var matches := FindByHotelAndDate(bookings, b.hotelId.value, b.bookingDate.value);
    forall j | j in matches ensures j == k {
      assert j in bookings && bookings[j].hotelId == b.hotelId && bookings[j].bookingDate == b.bookingDate;
    }
    assert matches == {k};
  }
}
