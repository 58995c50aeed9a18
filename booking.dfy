/** The booking entity: a customer, a hotel and a calendar date. The date
    must be present and in the future; bookings are listed by hotel id, then
    customer id, then date. */
module Bookings {
  import opened Common

  /** A calendar date as a day number; the time of day is not stored. */
  type Date = int

  const MILLIS_PER_DAY := 86_400_000

  /** @Temporal(DATE): the day an instant (milliseconds since the epoch,
      UTC) falls on. */
  function CalendarDate(millis: int): (d: Date)
    ensures d * MILLIS_PER_DAY <= millis < (d + 1) * MILLIS_PER_DAY
  {
    millis / MILLIS_PER_DAY
  }

  /** A booking. The customer and hotel references are carried as the ids
      they point to; None is a null reference. */
  datatype Booking = Booking(id: Option<int>, customerId: Option<int>, hotelId: Option<int>, bookingDate: Option<Date>)

  const FUTURE_MESSAGE := "Booking date must be in the future"

  /** Bean Validation of a booking: @NotNull and @Future on the date. A null
      date satisfies @Future, so it breaks @NotNull only. */
  function BookingViolations(b: Booking, today: Date): (vs: seq<Violation>)
    ensures vs == [] <==> b.bookingDate.Some? && b.bookingDate.value > today
    ensures |vs| <= 1
    ensures forall i :: 0 <= i < |vs| ==> vs[i].path == "bookingDate"
    ensures b.bookingDate.None? ==> vs == [Violation("bookingDate", NOT_NULL_MESSAGE)]
    ensures b.bookingDate.Some? && b.bookingDate.value <= today ==> vs == [Violation("bookingDate", FUTURE_MESSAGE)]
  {
    match b.bookingDate
    case None => [Violation("bookingDate", NOT_NULL_MESSAGE)]
    case Some(d) => if d > today then [] else [Violation("bookingDate", FUTURE_MESSAGE)]
  }

  /** FIND_BY_ID_AND_DATE: the ids of the bookings for that hotel on that
      date. */
  function FindByHotelAndDate(bookings: map<int, Booking>, hotelId: int, date: Date): set<int> {
    set k | k in bookings && bookings[k].hotelId == Some(hotelId) && bookings[k].bookingDate == Some(date)
  }

  /** The FIND_ALL sort key; stored bookings have all three parts. */
  function HotelKey(b: Booking): int { if b.hotelId.Some? then b.hotelId.value else 0 }
  function CustomerKey(b: Booking): int { if b.customerId.Some? then b.customerId.value else 0 }
  function DateKey(b: Booking): int { if b.bookingDate.Some? then b.bookingDate.value else 0 }

  /** ORDER BY hotel.id ASC, customer.id ASC, bookingDate ASC. */
  predicate ListingLe(a: Booking, b: Booking) {
    HotelKey(a) < HotelKey(b) ||
    (HotelKey(a) == HotelKey(b) && (CustomerKey(a) < CustomerKey(b) ||
      (CustomerKey(a) == CustomerKey(b) && DateKey(a) <= DateKey(b))))
  }

  predicate ListingOrdered(bs: seq<Booking>) {
    forall i, j :: 0 <= i < j < |bs| ==> ListingLe(bs[i], bs[j])
  }

  /** Inserts a booking into an ordered listing. */
  function InsertInListing(x: Booking, bs: seq<Booking>): (r: seq<Booking>)
    requires ListingOrdered(bs)
    ensures ListingOrdered(r)
    ensures multiset(r) == multiset(bs) + multiset{x}
    ensures |r| == |bs| + 1
  {
    if bs == [] then [x]
    else if ListingLe(x, bs[0]) then [x] + bs
    else
      var rest := InsertInListing(x, bs[1..]);
      assert bs == [bs[0]] + bs[1..];
      assert forall k :: 0 <= k < |rest| ==> ListingLe(bs[0], rest[k]) by {
        forall k | 0 <= k < |rest| ensures ListingLe(bs[0], rest[k]) {
          assert rest[k] in multiset(rest);
          assert rest[k] in multiset(bs[1..]) || rest[k] == x;
          if rest[k] != x {
            var m :| 0 <= m < |bs[1..]| && bs[1..][m] == rest[k];
            assert bs[m + 1] == rest[k];
          }
        }
      }
      [bs[0]] + rest
  }

  /** FIND_ALL: the stored bookings, in listing order. */
  function ListAll(bs: seq<Booking>): (r: seq<Booking>)
    ensures ListingOrdered(r)
    ensures multiset(r) == multiset(bs)
  {
    if bs == [] then []
    else
      assert bs == bs[..|bs| - 1] + [bs[|bs| - 1]];
      InsertInListing(bs[|bs| - 1], ListAll(bs[..|bs| - 1]))
  }
}
