/** BookingService over an abstract booking table: a map from id to
    booking and a counter for new ids, next to the customer and hotel
    tables the validator looks up. Writes happen only after validation, so
    stored bookings are complete and no two share a hotel and a date. */
module BookingStore {
  import opened Common
  import opened Bookings
  import opened BookingValidation
  import CustomerStore
  import HotelStore

  /** The table invariant. */
  ghost predicate TableInvariant(bookings: map<int, Booking>, nextId: int) {
    (forall k :: k in bookings ==>
      bookings[k].id == Some(k) && k < nextId &&
      bookings[k].customerId.Some? && bookings[k].hotelId.Some? && bookings[k].bookingDate.Some?) &&
    (forall j, k :: j in bookings && k in bookings && j != k ==>
      !(bookings[j].hotelId == bookings[k].hotelId && bookings[j].bookingDate == bookings[k].bookingDate))
  }

  /** In a consistent table at most one booking holds a given hotel and
      date, so the uniqueness query never raises NonUniqueResultException;
      and since stored bookings are complete, reading the hotel and date of
      the booking's own stored row never dereferences null. */
  lemma HotelDateCheckNeverThrows(bookings: map<int, Booking>, nextId: int, hotelId: int, date: Date, id: Option<int>)
    requires TableInvariant(bookings, nextId)
    ensures |FindByHotelAndDate(bookings, hotelId, date)| <= 1
    ensures BookingAlreadyExists(bookings, hotelId, date, id).Ok?
  {
    var matches := FindByHotelAndDate(bookings, hotelId, date);
    forall j, k | j in matches && k in matches ensures j == k {
      assert bookings[j].hotelId == Some(hotelId) == bookings[k].hotelId;
      assert bookings[j].bookingDate == Some(date) == bookings[k].bookingDate;
    }
    AtMostOne(matches);
    if id.Some? && id.value in bookings {
      var own := id.value;
      assert bookings[own].hotelId.Some? && bookings[own].bookingDate.Some?;
    }
  }

  /** Storing a validated booking under its own id, or under a new id when
      its hotel and date are free, keeps the invariant. */
  lemma {:induction false} StoreValidated<C, H>(bookings: map<int, Booking>, nextId: int, customers: map<int, C>,
                                               hotels: map<int, H>, today: Date, b: Booking, key: int)
    requires TableInvariant(bookings, nextId)
    requires ValidateBooking(b, bookings, customers, hotels, today).Pass?
    requires (key == nextId && !(b.id.Some? && b.id.value in bookings)) || (b.id == Some(key) && key in bookings)
    ensures TableInvariant(bookings[key := b.(id := Some(key))], if key == nextId then nextId + 1 else nextId)
  {
    ValidatedBookingFacts(b, bookings, customers, hotels, today);
    var after := bookings[key := b.(id := Some(key))];
    forall j, k | j in after && k in after && j != k
      ensures !(after[j].hotelId == after[k].hotelId && after[j].bookingDate == after[k].bookingDate)
    {
      if j == key {
        assert k in bookings && after[k] == bookings[k];
      } else if k == key {
        assert j in bookings && after[j] == bookings[j];
      } else {
        assert after[j] == bookings[j] && after[k] == bookings[k];
      }
    }
  }

  /** The validator's existence checks are the services' lookups: each holds
      exactly when findById on that service returns a row. */
  lemma ExistenceChecksAreLookups(svc: BookingService, customerId: int, hotelId: int)
    ensures CustomerExists(svc.customerService.customers, customerId) <==> svc.customerService.FindById(customerId).Some?
    ensures HotelExists(svc.hotelService.hotels, hotelId) <==> svc.hotelService.FindById(hotelId).Some?
  {
  }

  class BookingService {
    var bookings: map<int, Booking>
    var nextId: int
    const customerService: CustomerStore.CustomerService
    const hotelService: HotelStore.HotelService

    ghost predicate Valid()
      reads this
    {
      TableInvariant(bookings, nextId)
    }

    constructor (customerService: CustomerStore.CustomerService, hotelService: HotelStore.HotelService)
      ensures Valid() && bookings == map[] && nextId == 1
      ensures this.customerService == customerService && this.hotelService == hotelService
    {
      bookings := map[];
      nextId := 1;
      this.customerService := customerService;
      this.hotelService := hotelService;
    }

    /** The validator run against the current tables. */
    function Check(b: Booking, today: Date): Outcome
      reads this, customerService, hotelService
    {
      ValidateBooking(b, bookings, customerService.customers, hotelService.hotels, today)
    }

    /** findById: the stored booking with that id, or null. */
    function FindById(id: int): (r: Option<Booking>)
      reads this
      ensures r.Some? <==> id in bookings
      ensures r.Some? ==> r.value == bookings[id]
    {
      if id in bookings then Some(bookings[id]) else None
    }

    /** create: the log line reads the customer's and the hotel's ids, so a
        null reference fails first; then validate, then persist with a fresh
        id. A booking that fails validation is never written. */
    method Create(b: Booking, today: Date) returns (r: Result<Booking>)
      requires Valid()
      modifies this
      ensures Valid()
      ensures b.customerId.None? || b.hotelId.None? ==>
        r == Err(Other(NULL_POINTER_MESSAGE)) && bookings == old(bookings) && nextId == old(nextId)
      ensures b.customerId.Some? && b.hotelId.Some? && old(Check(b, today)).Fail? ==>
        r == Err(old(Check(b, today)).error) && bookings == old(bookings) && nextId == old(nextId)
      ensures b.customerId.Some? && b.hotelId.Some? && old(Check(b, today)).Pass? && b.id.Some? ==>
        r == Err(Other(DETACHED_MESSAGE)) && bookings == old(bookings) && nextId == old(nextId)
      ensures b.customerId.Some? && b.hotelId.Some? && old(Check(b, today)).Pass? && b.id.None? ==>
        r == Ok(b.(id := Some(old(nextId)))) && bookings == old(bookings)[old(nextId) := r.value] && nextId == old(nextId) + 1
    {
      if b.customerId.None? || b.hotelId.None? {
        r := Err(Other(NULL_POINTER_MESSAGE));
        return;
      }
      var v := Check(b, today);
      if v.Fail? {
        r := Err(v.error);
        return;
      }
      if b.id.Some? {
        r := Err(Other(DETACHED_MESSAGE));
        return;
      }
      StoreValidated(bookings, nextId, customerService.customers, hotelService.hotels, today, b, nextId);
      var stored := b.(id := Some(nextId));
      bookings := bookings[nextId := stored];
      nextId := nextId + 1;
      r := Ok(stored);
    }

    /** update: validate, then merge. A stored id is overwritten; a booking
        without an id, or with one that is not stored, is inserted as a copy
        under a fresh id. The argument itself is returned. */
    method Update(b: Booking, today: Date) returns (r: Result<Booking>)
      requires Valid()
      modifies this
      ensures Valid()
      ensures old(Check(b, today)).Fail? ==>
        r == Err(old(Check(b, today)).error) && bookings == old(bookings) && nextId == old(nextId)
      ensures old(Check(b, today)).Pass? && b.id.Some? && b.id.value in old(bookings) ==>
        r == Ok(b) && bookings == old(bookings)[b.id.value := b] && nextId == old(nextId)
      ensures old(Check(b, today)).Pass? && !(b.id.Some? && b.id.value in old(bookings)) ==>
        r == Ok(b) && bookings == old(bookings)[old(nextId) := b.(id := Some(old(nextId)))] && nextId == old(nextId) + 1
    {
      var v := Check(b, today);
      if v.Fail? {
        r := Err(v.error);
        return;
      }
      if b.id.Some? && b.id.value in bookings {
        StoreValidated(bookings, nextId, customerService.customers, hotelService.hotels, today, b, b.id.value);
        assert b.(id := Some(b.id.value)) == b;
        bookings := bookings[b.id.value := b];
      } else {
        StoreValidated(bookings, nextId, customerService.customers, hotelService.hotels, today, b, nextId);
        bookings := bookings[nextId := b.(id := Some(nextId))];
        nextId := nextId + 1;
      }
      r := Ok(b);
    }

    /** delete: a booking without an id is not deleted and null comes back;
        otherwise the record with that id is removed and the booking is
        returned. */
    method Delete(b: Booking) returns (r: Option<Booking>)
      requires Valid()
      modifies this
      ensures Valid() && nextId == old(nextId)
      ensures b.id.None? ==> r.None? && bookings == old(bookings)
      ensures b.id.Some? ==> r == Some(b) && bookings == old(bookings) - {b.id.value}
    {
      if b.id.None? {
        r := None;
        return;
      }
      bookings := bookings - {b.id.value};
      r := Some(b);
    }
  }
}
