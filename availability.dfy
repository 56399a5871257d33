/** The availability side of the booking controller: how many nights a stay is billed for,
    when a requested stay collides with a confirmed one, and which ranges a listing's
    calendar shows as blocked. */
module Availability {
  import opened BookingTypes

  /** `Math.ceil((end - start) / DayMs)`: the number of nights billed, i.e. the least whole
      number of days that covers the stay. Negative when the stay ends before it starts. */
  function Nights(start: Timestamp, end: Timestamp): (r: int)
    ensures (r - 1) * DayMs < end - start <= r * DayMs
  {
    var q := (start - end) / DayMs;
    assert (start - end) == q * DayMs + (start - end) % DayMs;
    -q
  }

  /** A stay is billed for at least one night exactly when it ends after it starts. */
  lemma NightsPositiveIff(start: Timestamp, end: Timestamp)
    ensures Nights(start, end) > 0 <==> start < end
  {
  }

  /** A stay of exactly `n` days is billed for `n` nights. */
  lemma NightsWholeDays(start: Timestamp, n: int)
    ensures Nights(start, start + n * DayMs) == n
  {
  }

  /** Half-open intervals `[s1, e1)` and `[s2, e2)` share a moment. */
  predicate RangesOverlap(s1: Timestamp, e1: Timestamp, s2: Timestamp, e2: Timestamp) {
    s1 < e2 && s2 < e1
  }

  /** The conflict query: booking `b` is a confirmed booking of `listing` whose stay
      overlaps `[start, end)` (`startDate < end && endDate > start`). */
  predicate Overlaps(b: Booking, listing: ListingId, start: Timestamp, end: Timestamp) {
    b.listing == listing && b.status == Confirmed
    && RangesOverlap(b.startDate, b.endDate, start, end)
  }

  /** `Booking.findOne` for a conflicting booking: the index of the first booking, in store
      order, that is a confirmed booking of `listing` overlapping `[start, end)`. */
  function FindConflict(bookings: seq<Booking>, listing: ListingId, start: Timestamp, end: Timestamp)
    : (r: Option<nat>)
    ensures r.Some? ==> r.value < |bookings| && Overlaps(bookings[r.value], listing, start, end)
    ensures r.Some? ==> forall j :: 0 <= j < r.value ==> !Overlaps(bookings[j], listing, start, end)
    ensures r.None? ==> forall j :: 0 <= j < |bookings| ==> !Overlaps(bookings[j], listing, start, end)
  {
    if |bookings| == 0 then None
    else if Overlaps(bookings[0], listing, start, end) then Some(0)
    else match FindConflict(bookings[1..], listing, start, end)
      case None => None
      case Some(i) => Some(i + 1)
  }

  /** A booking that is not confirmed never causes a conflict, whatever its dates: replacing
      one unconfirmed booking by another leaves the conflict search's answer unchanged. */
  lemma {:induction false} ConflictIgnoresUnconfirmed(
    bookings: seq<Booking>, k: nat, b: Booking, listing: ListingId, start: Timestamp, end: Timestamp)
    requires k < |bookings|
    requires bookings[k].status != Confirmed && b.status != Confirmed
    ensures FindConflict(bookings[k := b], listing, start, end) == FindConflict(bookings, listing, start, end)
  {
    if k > 0 {
      assert bookings[k := b][1..] == bookings[1..][k - 1 := b];
      ConflictIgnoresUnconfirmed(bookings[1..], k - 1, b, listing, start, end);
    }
  }

  /** Because both comparisons are strict, a confirmed stay `[s, e)` blocks neither a request
      that starts on its check-out moment `e` nor one that ends on its check-in moment `s`. */
  lemma TouchingStaysDoNotOverlap(b: Booking, other: Timestamp)
    ensures !Overlaps(b, b.listing, b.endDate, other)
    ensures !Overlaps(b, b.listing, other, b.startDate)
  {
  }

  /** The booking contributes its stay to its listing's calendar. */
  predicate Blocks(b: Booking, listing: ListingId) {
    b.listing == listing && b.status == Confirmed
  }

  /** `getBlockedDates`: the `{ start, end }` pair of every confirmed booking of `listing`,
      in store order. */
  function BlockedDates(bookings: seq<Booking>, listing: ListingId): (r: seq<Range>)
    ensures |r| <= |bookings|
    ensures forall rg :: rg in r <==>
      exists b :: b in bookings && Blocks(b, listing) && rg == Range(b.startDate, b.endDate)
  {
    if |bookings| == 0 then []
    else
      var rest := BlockedDates(bookings[1..], listing);
      assert forall b :: b in bookings <==> b == bookings[0] || b in bookings[1..];
      (if Blocks(bookings[0], listing) then [Range(bookings[0].startDate, bookings[0].endDate)] else [])
      + rest
  }

  /** The calendar keeps store order: the blocked ranges of two runs of bookings are those of
      the first run followed by those of the second. */
  lemma {:induction false} BlockedDatesAppend(a: seq<Booking>, b: seq<Booking>, listing: ListingId)
    ensures BlockedDates(a + b, listing) == BlockedDates(a, listing) + BlockedDates(b, listing)
  {
    if |a| > 0 {
      assert (a + b)[1..] == a[1..] + b;
      BlockedDatesAppend(a[1..], b, listing);
    } else {
      assert a + b == b;
    }
  }

  /** The calendar and the conflict check agree: a request conflicts exactly when one of the
      listing's blocked ranges overlaps it. */
  lemma ConflictIffBlockedRangeOverlaps(
    bookings: seq<Booking>, listing: ListingId, start: Timestamp, end: Timestamp)
    ensures FindConflict(bookings, listing, start, end).Some? <==>
      exists rg :: rg in BlockedDates(bookings, listing) && RangesOverlap(rg.start, rg.end, start, end)
  {
    var blocked := BlockedDates(bookings, listing);
    match FindConflict(bookings, listing, start, end)
    case Some(i) =>
      var b := bookings[i];
      assert Range(b.startDate, b.endDate) in blocked;
    case None =>
      forall rg | rg in blocked
        ensures !RangesOverlap(rg.start, rg.end, start, end)
      {
        var b :| b in bookings && Blocks(b, listing) && rg == Range(b.startDate, b.endDate);
        var j :| 0 <= j < |bookings| && bookings[j] == b;
        assert !Overlaps(bookings[j], listing, start, end);
      }
  }

  /** 2024-06-01, 2024-06-03, 2024-06-05 and 2024-06-07 at 00:00 UTC. */
  const June1: Timestamp := 1717200000000
  const June3: Timestamp := June1 + 2 * DayMs
  const June5: Timestamp := June1 + 4 * DayMs
  const June7: Timestamp := June1 + 6 * DayMs

  /** A four-night stay at 100 a night costs 400; against a confirmed stay from June 1 to
      June 5, a request from June 3 to June 7 conflicts and one from June 5 to June 7 does not. */
  lemma JuneExample()
    ensures Nights(June1, June5) == 4 && 100 * Nights(June1, June5) == 400
    ensures var held := [Booking(0, 1, 2, June1, June5, 2, 400, Confirmed)];
      FindConflict(held, 1, June3, June7) == Some(0) && FindConflict(held, 1, June5, June7) == None
  {
  }
}
