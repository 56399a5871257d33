/** The read-only side of the booking controller: looking a booking up by its id, the
    guest's and the host's lists of current bookings, and the host check that gates
    status changes. */
module Queries {
  import opened BookingTypes

  /** `Booking.findById`: the position of the first booking carrying `id`. */
  function IndexOfId(bookings: seq<Booking>, id: BookingId): (r: Option<nat>)
    ensures r.Some? ==> r.value < |bookings| && bookings[r.value].id == id
    ensures r.Some? ==> forall j :: 0 <= j < r.value ==> bookings[j].id != id
    ensures r.None? ==> forall j :: 0 <= j < |bookings| ==> bookings[j].id != id
  {
    if |bookings| == 0 then None
    else if bookings[0].id == id then Some(0)
    else match IndexOfId(bookings[1..], id)
      case None => None
      case Some(i) => Some(i + 1)
  }

  /** `showBookingDetails`: the booking with that id, or "Booking not found". Any caller may
      look at any booking. */
  function ShowBookingDetails(bookings: seq<Booking>, id: BookingId): (r: Result<Booking>)
    ensures r.Ok? ==> r.value in bookings && r.value.id == id
    ensures r.Err? ==> r.error == BookingNotFound && forall b :: b in bookings ==> b.id != id
  {
    match IndexOfId(bookings, id)
    case Some(k) => Ok(bookings[k])
    case None => Err(BookingNotFound)
  }

  /** `booking.listing.owner.equals(user)`: `user` is the host of the booking's listing. */
  predicate IsHostOf(listings: map<ListingId, Listing>, b: Booking, user: UserId) {
    b.listing in listings && listings[b.listing].owner == user
  }

  /** `showBooking`: the bookings made by `user` that have not ended before `today`,
      in store order. */
  function UserBookings(bookings: seq<Booking>, user: UserId, today: Timestamp): (r: seq<Booking>)
    ensures |r| <= |bookings|
    ensures forall b :: b in r <==> b in bookings && b.user == user && b.endDate >= today
  {
    if |bookings| == 0 then []
    else
      var rest := UserBookings(bookings[1..], user, today);
      var b := bookings[0];
      assert forall x :: x in bookings <==> x == b || x in bookings[1..];
      (if b.user == user && b.endDate >= today then [b] else []) + rest
  }

  /** `showHostBookings`: the bookings of every listing `host` owns that have not ended
      before `today`, in store order. */
  function HostBookings(bookings: seq<Booking>, listings: map<ListingId, Listing>, host: UserId, today: Timestamp)
    : (r: seq<Booking>)
    ensures |r| <= |bookings|
    ensures forall b :: b in r <==> b in bookings && IsHostOf(listings, b, host) && b.endDate >= today
  {
    if |bookings| == 0 then []
    else
      var rest := HostBookings(bookings[1..], listings, host, today);
      var b := bookings[0];
      assert forall x :: x in bookings <==> x == b || x in bookings[1..];
      (if IsHostOf(listings, b, host) && b.endDate >= today then [b] else []) + rest
  }

  /** The guest's list keeps store order. */
  lemma {:induction false} UserBookingsAppend(a: seq<Booking>, b: seq<Booking>, user: UserId, today: Timestamp)
    ensures UserBookings(a + b, user, today) == UserBookings(a, user, today) + UserBookings(b, user, today)
  {
    if |a| > 0 {
      assert (a + b)[1..] == a[1..] + b;
      UserBookingsAppend(a[1..], b, user, today);
    } else {
      assert a + b == b;
    }
  }

  /** The host's list keeps store order. */
  lemma {:induction false} HostBookingsAppend(
    a: seq<Booking>, b: seq<Booking>, listings: map<ListingId, Listing>, host: UserId, today: Timestamp)
    ensures HostBookings(a + b, listings, host, today)
         == HostBookings(a, listings, host, today) + HostBookings(b, listings, host, today)
  {
    if |a| > 0 {
      assert (a + b)[1..] == a[1..] + b;
      HostBookingsAppend(a[1..], b, listings, host, today);
    } else {
      assert a + b == b;
    }
  }
}
