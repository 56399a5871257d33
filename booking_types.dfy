/** Entities shared by the booking controller: listings, bookings, their status and the
    error outcomes the controller reports back to its caller. */
module BookingTypes {

  type UserId = nat
  type ListingId = nat
  type BookingId = nat

  /** A point in time in milliseconds since the Unix epoch, as a JavaScript `Date` holds it. */
  type Timestamp = int

  /** One day in milliseconds: `1000 * 60 * 60 * 24`. */
  const DayMs: int := 1000 * 60 * 60 * 24

  datatype Status = Pending | Confirmed | Cancelled

  /** The two fields of a listing the booking core reads. */
  datatype Listing = Listing(owner: UserId, price: nat)

  /** A stored booking record. */
  datatype Booking = Booking(
    id: BookingId,
    listing: ListingId,
    user: UserId,
    startDate: Timestamp,
    endDate: Timestamp,
    guests: int,
    totalPrice: nat,
    status: Status)

  /** A blocked stay as returned to the calendar: `{ start, end }`. */
  datatype Range = Range(start: Timestamp, end: Timestamp)

  /** The failures the controller reports with a flash message and a redirect. */
  datatype Error =
    | ListingNotFound   // "Listing not found"
    | InvalidDates      // "Invalid booking dates"
    | DatesUnavailable  // "These dates are not available"
    | BookingNotFound   // "Booking not found"
    | NotAuthorized     // "Not authorized to confirm/cancel this booking"

  datatype Option<T> = None | Some(value: T)

  datatype Result<T> = Ok(value: T) | Err(error: Error)

  /** The outcome of a status change, which returns no value. */
  datatype Outcome = Done | Fail(error: Error)
}
