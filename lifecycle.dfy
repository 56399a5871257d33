/** The reservation lifecycle of the booking controller: a store of bookings over a fixed
    table of listings, where guests request stays and hosts confirm or cancel them. */
module Lifecycle {
  import opened BookingTypes
  import opened Availability
  import opened Queries

  /** No two confirmed bookings of the same listing share a moment. */
  predicate NoDoubleBooking(bookings: seq<Booking>) {
    forall i, j :: 0 <= i < |bookings| && 0 <= j < |bookings| && i != j
      && bookings[i].listing == bookings[j].listing
      && bookings[i].status == Confirmed && bookings[j].status == Confirmed
      ==> !RangesOverlap(bookings[i].startDate, bookings[i].endDate, bookings[j].startDate, bookings[j].endDate)
  }

  /** `confirmBooking` / `cancelBooking` on the bookings table: when the booking exists and
      `actor` owns its listing, overwrite that booking's status with `status`, whatever it was;
      otherwise report "Not authorized" and change nothing. */
  function SetStatusAsHost(
    bookings: seq<Booking>, listings: map<ListingId, Listing>, id: BookingId, actor: UserId, status: Status)
    : (r: (Outcome, seq<Booking>))
    ensures |r.1| == |bookings|
    ensures r.0 == Done <==>
      IndexOfId(bookings, id).Some? && IsHostOf(listings, bookings[IndexOfId(bookings, id).value], actor)
    ensures r.0 != Done ==> r.0 == Fail(NotAuthorized) && r.1 == bookings
    ensures r.0 == Done ==>
      var k := IndexOfId(bookings, id).value;
      forall i :: 0 <= i < |bookings| ==>
        r.1[i] == if i == k then bookings[i].(status := status) else bookings[i]
  {
    match IndexOfId(bookings, id)
    case Some(k) =>
      if IsHostOf(listings, bookings[k], actor) then (Done, bookings[k := bookings[k].(status := status)])
      else (Fail(NotAuthorized), bookings)
    case None => (Fail(NotAuthorized), bookings)
  }

  /** Adding a booking that is not confirmed cannot create a double booking. */
  lemma AppendingUnconfirmedKeepsNoDoubleBooking(bookings: seq<Booking>, b: Booking)
    requires NoDoubleBooking(bookings)
    requires b.status != Confirmed
    ensures NoDoubleBooking(bookings + [b])
  {
  }

  /** A host change to any status other than "confirmed" (in the controller: cancelling)
      cannot create a double booking. */
  lemma UnconfirmingKeepsNoDoubleBooking(
    bookings: seq<Booking>, listings: map<ListingId, Listing>, id: BookingId, actor: UserId, status: Status)
    requires NoDoubleBooking(bookings)
    requires status != Confirmed
    ensures NoDoubleBooking(SetStatusAsHost(bookings, listings, id, actor, status).1)
  {
  }

  /** Confirming booking `k` keeps the listing free of double bookings when `k` was already
      confirmed or no confirmed booking of its listing overlaps its stay. */
  lemma ConfirmingFreeBookingKeepsNoDoubleBooking(bookings: seq<Booking>, k: nat)
    requires NoDoubleBooking(bookings)
    requires k < |bookings|
    requires bookings[k].status == Confirmed
      || FindConflict(bookings, bookings[k].listing, bookings[k].startDate, bookings[k].endDate).None?
    ensures NoDoubleBooking(bookings[k := bookings[k].(status := Confirmed)])
  {
  }

  /** `confirmBooking` with the overlap re-check it lacks: a host confirmation of a booking
      that is not yet confirmed is refused with "dates not available" while a confirmed
      booking of the same listing overlaps it; otherwise it behaves as `SetStatusAsHost`. */
  function ConfirmChecked(
    bookings: seq<Booking>, listings: map<ListingId, Listing>, id: BookingId, actor: UserId)
    : (r: (Outcome, seq<Booking>))
    ensures r.0 == Done ==> r == SetStatusAsHost(bookings, listings, id, actor, Confirmed)
    ensures r.0 != Done ==> r.1 == bookings
    ensures r.0 != Fail(DatesUnavailable) ==> r == SetStatusAsHost(bookings, listings, id, actor, Confirmed)
    ensures r.0 == Fail(DatesUnavailable) <==>
      IndexOfId(bookings, id).Some?
      && var b := bookings[IndexOfId(bookings, id).value];
      IsHostOf(listings, b, actor) && b.status != Confirmed
      && FindConflict(bookings, b.listing, b.startDate, b.endDate).Some?
    ensures NoDoubleBooking(bookings) ==> NoDoubleBooking(r.1)
  {
    var found := IndexOfId(bookings, id);
    if found.Some? && IsHostOf(listings, bookings[found.value], actor)
      && bookings[found.value].status != Confirmed
      && FindConflict(bookings, bookings[found.value].listing, bookings[found.value].startDate,
                      bookings[found.value].endDate).Some?
    then
      (Fail(DatesUnavailable), bookings)
    else
      var r := SetStatusAsHost(bookings, listings, id, actor, Confirmed);
      if NoDoubleBooking(bookings) && r.0 == Done then
        ConfirmingFreeBookingKeepsNoDoubleBooking(bookings, found.value);
        assert r.1 == bookings[found.value := bookings[found.value].(status := Confirmed)];
        r
      else
        r
  }

  /** The booking store: the bookings collection, over the listings the core only reads. */
  class Store {
    const listings: map<ListingId, Listing>
    var bookings: seq<Booking>
    /** The id the next created booking receives; ids are never reused. */
    var nextId: BookingId

    /** Every booking has a distinct id already handed out, refers to an existing listing and
        has a stay that ends after it starts. */
    ghost predicate Valid()
      reads this
    {
      (forall i :: 0 <= i < |bookings| ==>
        bookings[i].id < nextId && bookings[i].listing in listings
        && bookings[i].startDate < bookings[i].endDate)
      && (forall i, j :: 0 <= i < j < |bookings| ==> bookings[i].id != bookings[j].id)
    }

    constructor (listings: map<ListingId, Listing>)
      ensures Valid()
      ensures this.listings == listings && bookings == [] && nextId == 0
    {
      this.listings := listings;
      bookings := [];
      nextId := 0;
    }

    /** `createBooking`: `user` requests `listingId` for `[start, end)` with `guests` guests. */
    method CreateBooking(listingId: ListingId, user: UserId, start: Timestamp, end: Timestamp, guests: int)
      returns (r: Result<BookingId>)
      requires Valid()
      modifies this
      ensures Valid()
      ensures r.Ok? <==>
        listingId in listings && Nights(start, end) > 0
        && FindConflict(old(bookings), listingId, start, end).None?
      ensures listingId !in listings ==> r == Err(ListingNotFound)
      ensures listingId in listings && Nights(start, end) <= 0 ==> r == Err(InvalidDates)
      ensures (listingId in listings && Nights(start, end) > 0
               && FindConflict(old(bookings), listingId, start, end).Some?) ==> r == Err(DatesUnavailable)
      ensures r.Err? ==> bookings == old(bookings) && nextId == old(nextId)
      ensures r.Ok? ==>
        (forall b :: b in old(bookings) ==> b.id != r.value)
        && r.value == old(nextId) && nextId == old(nextId) + 1 && Nights(start, end) > 0
        && bookings == old(bookings) + [Booking(r.value, listingId, user, start, end, guests,
                                                listings[listingId].price * Nights(start, end), Pending)]
      ensures old(NoDoubleBooking(bookings)) ==> NoDoubleBooking(bookings)
    {
      if listingId !in listings {
        return Err(ListingNotFound);
      }
      var nights := Nights(start, end);
      if nights <= 0 {
        return Err(InvalidDates);
      }
      if FindConflict(bookings, listingId, start, end).Some? {
        return Err(DatesUnavailable);
      }
      NightsPositiveIff(start, end);
      var totalPrice := listings[listingId].price * nights;
      var booking := Booking(nextId, listingId, user, start, end, guests, totalPrice, Pending);
      if NoDoubleBooking(bookings) {
        AppendingUnconfirmedKeepsNoDoubleBooking(bookings, booking);
      }
      bookings := bookings + [booking];
      r := Ok(nextId);
      nextId := nextId + 1;
    }

    /** `confirmBooking`: the listing's host marks booking `id` confirmed. */
    method ConfirmBooking(id: BookingId, actor: UserId) returns (r: Outcome)
      requires Valid()
      modifies this
      ensures Valid() && nextId == old(nextId)
      ensures (r, bookings) == SetStatusAsHost(old(bookings), listings, id, actor, Confirmed)
    {
      var result := SetStatusAsHost(bookings, listings, id, actor, Confirmed);
      r, bookings := result.0, result.1;
    }

    /** `cancelBooking`: the listing's host marks booking `id` cancelled. */
    method CancelBooking(id: BookingId, actor: UserId) returns (r: Outcome)
      requires Valid()
      modifies this
      ensures Valid() && nextId == old(nextId)
      ensures (r, bookings) == SetStatusAsHost(old(bookings), listings, id, actor, Cancelled)
      ensures old(NoDoubleBooking(bookings)) ==> NoDoubleBooking(bookings)
    {
      var result := SetStatusAsHost(bookings, listings, id, actor, Cancelled);
      if NoDoubleBooking(bookings) {
        UnconfirmingKeepsNoDoubleBooking(bookings, listings, id, actor, Cancelled);
      }
      r, bookings := result.0, result.1;
    }
  }

  /** Two guests request overlapping stays while neither is confirmed, so both requests are
      accepted; the host then confirms both, and the listing is double-booked. */
  method DoubleBookingScenario()
    returns (store: Store, first: Result<BookingId>, second: Result<BookingId>,
             confirmedFirst: Outcome, confirmedSecond: Outcome)
    ensures first == Ok(0) && second == Ok(1)
    ensures confirmedFirst == Done && confirmedSecond == Done
    ensures |store.bookings| == 2
    ensures RangesOverlap(store.bookings[0].startDate, store.bookings[0].endDate,
                          store.bookings[1].startDate, store.bookings[1].endDate)
    ensures !NoDoubleBooking(store.bookings)
  {
    store := new Store(map[1 := Listing(7, 100)]);
    NightsWholeDays(June1, 4);
    NightsWholeDays(June3, 4);
    first := store.CreateBooking(1, 2, June1, June5, 2);
    second := store.CreateBooking(1, 3, June3, June7, 2);
    assert store.bookings[0].status == Pending;
    confirmedFirst := store.ConfirmBooking(0, 7);
    confirmedSecond := store.ConfirmBooking(1, 7);
    assert store.bookings[0].status == Confirmed && store.bookings[1].status == Confirmed;
  }
}
