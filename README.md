# CozyStay booking core in Dafny

A model of CozyStay's booking controller (`controllers/booking.js`). Guests request a
listing for a date range. The request is refused when the listing does not exist, when
the range covers no night, or when it overlaps a booking already confirmed for that
listing. Otherwise a new booking is stored with price `listing.price * nights`. The host who
owns the listing may later confirm or cancel the booking. Read-only queries give a
listing's blocked ranges, a guest's current bookings, a host's current bookings and a
single booking by id.

The controller gives one answer, "Not authorized", both when the booking to confirm or
cancel does not exist and when the caller does not own its listing. It overwrites the
status whatever it was before. The model does both the same way.

Layout:

- `booking_types.dfy` (module `BookingTypes`): listings, bookings, statuses, ranges and the
  controller's error outcomes. Dates are integer millisecond timestamps.
- `availability.dfy` (module `Availability`): the night count, the overlap test, the
  conflict search and the blocked-dates calendar.
- `queries.dfy` (module `Queries`): lookup by id, the guest and host booking lists, and the
  host-ownership check.
- `lifecycle.dfy` (module `Lifecycle`): the `Store` class that holds the bookings table and
  the listings it reads. It has the methods `CreateBooking`, `ConfirmBooking` and
  `CancelBooking`. The module also holds the no-double-booking invariant and the lemmas
  about which operations preserve it.

The class invariant `Store.Valid()` says three things. Booking ids are distinct and below
the next id to hand out. Every booking refers to an existing listing. Every stay ends after
it starts. Every `Store` method preserves it. Creating and cancelling also preserve
`NoDoubleBooking`, which says no two confirmed bookings of one listing overlap. Confirming
does not, because the controller confirms without re-checking overlap (see Findings).

## Model

| member | source | states |
|---|---|---|
| `Availability.Nights` | controllers/booking.js:18 | the night count is the least whole number of days covering `end - start` (ceiling division by 86 400 000 ms) |
| `Availability.NightsPositiveIff` | controllers/booking.js:18-22 | at least one night is billed exactly when `start < end`, so every `end <= start` is rejected as invalid dates |
| `Availability.NightsWholeDays` | controllers/booking.js:18 | a stay of exactly `n` days is `n` nights |
| `Availability.FindConflict` | controllers/booking.js:25-31 | returns a booking satisfying the predicate `Overlaps` (the filter at lines 26-29: same listing, status "confirmed", `startDate < end && endDate > start`), the first one in store order; returns none exactly when no booking satisfies `Overlaps` |
| `Availability.ConflictIgnoresUnconfirmed` | controllers/booking.js:27 | swapping one booking that is not confirmed for another, whatever its dates, leaves the conflict answer unchanged |
| `Availability.TouchingStaysDoNotOverlap` | controllers/booking.js:29 | both comparisons are strict, so a confirmed `[s, e)` does not block a request that starts at `e` or one that ends at `s` |
| `Availability.BlockedDates` | controllers/booking.js:70-78 | a range is listed exactly when some confirmed booking of the listing has that start and end; there are no more entries than bookings |
| `Availability.BlockedDatesAppend` | controllers/booking.js:70-78 | blocked ranges come out in store order: the result for `a + b` is the result for `a` followed by the result for `b` |
| `Availability.ConflictIffBlockedRangeOverlaps` | controllers/booking.js:25-31 | a request conflicts exactly when one of the listing's blocked ranges overlaps it, so the calendar and the create-time check agree |
| `Availability.JuneExample` | controllers/booking.js:18-38 | June 1 to June 5 is 4 nights, costing 400 at 100 a night; with June 1-5 confirmed, June 3-7 conflicts and June 5-7 does not |
| `Queries.IndexOfId` | controllers/booking.js:85 | finds the first booking carrying the id; finds nothing exactly when no booking carries it |
| `Queries.ShowBookingDetails` | controllers/booking.js:84-95 | returns a stored booking with that id, or "Booking not found" when none has it |
| `Queries.UserBookings` | controllers/booking.js:56-61 | holds exactly the stored bookings made by the user whose `endDate >= today` |
| `Queries.UserBookingsAppend` | controllers/booking.js:58-61 | the guest's list keeps store order |
| `Queries.HostBookings` | controllers/booking.js:100-111 | holds exactly the stored bookings whose listing the host owns (the predicate `IsHostOf`, the owner filter at lines 102-107) and whose `endDate >= today` |
| `Queries.HostBookingsAppend` | controllers/booking.js:106-109 | the host's list keeps store order |
| `Lifecycle.SetStatusAsHost` | controllers/booking.js:118-126 | succeeds exactly when the booking exists and the actor owns its listing, the predicate `IsHostOf` (`booking.listing.owner.equals(req.user._id)` at lines 120 and 136). On success only that booking's status changes, to the new value, whatever it was before. Otherwise it reports "Not authorized" and changes nothing |
| `Lifecycle.AppendingUnconfirmedKeepsNoDoubleBooking` | controllers/booking.js:40-49 | adding a booking that is not confirmed cannot create a double booking |
| `Lifecycle.UnconfirmingKeepsNoDoubleBooking` | controllers/booking.js:141 | a host status change to anything but "confirmed" (cancelling) cannot create a double booking |
| `Lifecycle.ConfirmingFreeBookingKeepsNoDoubleBooking` | controllers/booking.js:125 | confirming a booking keeps the no-double-booking invariant when the booking was already confirmed or no confirmed booking of its listing overlaps it |
| `Lifecycle.ConfirmChecked` | controllers/booking.js:125 | confirming with the overlap re-check refuses exactly the confirmations that overlap a confirmed booking. Every other call has exactly the outcome and new store of `SetStatusAsHost` with "confirmed", so an authorized, conflict-free confirmation succeeds. It always preserves the no-double-booking invariant |
| `Lifecycle.Store.CreateBooking` | controllers/booking.js:5-53 | fails with listing not found, invalid dates or dates unavailable, in that order, and then leaves the store unchanged. On success it returns an id no existing booking carries and appends exactly one booking with that id, the listing, user, dates, guests and `price * nights`, keeps every existing booking, and preserves the no-double-booking invariant |
| `Lifecycle.Store.ConfirmBooking` | controllers/booking.js:117-130 | the new store and outcome are those of `SetStatusAsHost` with status "confirmed" |
| `Lifecycle.Store.CancelBooking` | controllers/booking.js:133-146 | the new store and outcome are those of `SetStatusAsHost` with status "cancelled", and it preserves the no-double-booking invariant |
| `Lifecycle.DoubleBookingScenario` | controllers/booking.js:117-126 | two overlapping requests are both accepted (`Ok(0)`, `Ok(1)`) while pending; the host's two confirmations both return `Done`, and the store ends with two overlapping confirmed bookings of one listing |

## Left out

- Routing, the `isLoggedIn` middleware, `req.flash`, `res.redirect`, `res.render` and `res.json` are not modelled. Each redirect with an error message becomes an `Error` value; success becomes `Ok`/`Done` or the returned data.
- The MongoDB models, queries, `.populate`, `.select`, `.save` and `async`/`await` are replaced by a sequence of booking records and a map of listings. Booking ids come from a counter standing in for fresh object ids. `findOne` is modelled as the first match in store order; the controller only uses whether a match exists.
- Date parsing (`new Date(startDate)`) is the caller's job: dates are integer millisecond timestamps. An unparseable date would give `NaN` nights, which passes the `nights <= 0` test in JavaScript. That path is not modelled.
- The clock (`new Date()` in the guest and host lists) is the `today` parameter.
- Concurrency is not modelled. Two concurrent `createBooking` calls can both pass the conflict check before either saves.
- Prices are natural numbers, not floating point, and `guests` is passed through unchecked as an integer.
- The booking schema (`models/booking`) is not part of this model. It supplies the status of a new booking, since the controller sets none. The model assumes it is "pending".
- The listing model and its create, update and delete are not part of this model. `Store.listings` is constant. So a booking whose listing was deleted, where `.populate` gives `null` and the owner check throws, cannot arise.
- `showBookingDetails` performs no authorization in the controller, and the model adds none.

## Findings

| source | as written | input that shows it | evidently intended | confidence | as-written member | corrected member |
|---|---|---|---|---|---|---|
| controllers/booking.js:125 | confirming sets the status to "confirmed" without checking the listing's other confirmed bookings | listing 1 owned by user 7; guests 2 and 3 request June 1-5 and June 3-7 while neither is confirmed, so both are accepted; user 7 confirms both | a confirmation that would overlap a confirmed booking of the same listing is refused, so no listing is ever double-booked | medium, not executed | `Lifecycle.DoubleBookingScenario` | `Lifecycle.ConfirmChecked` |

`Store.ConfirmBooking` keeps the controller's behaviour as written. `ConfirmChecked` is the
corrected confirmation, proved to preserve `NoDoubleBooking`.
