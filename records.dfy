/** The booking records that the booking form writes and the dashboard reads back. */
module Records {
  import opened Wrappers
  import opened Calendar

  datatype Status = Pending | Confirmed | Cancelled

  /** The text a status is stored and compared as. */
  function StatusName(s: Status): string {
    match s
    case Pending => "pending"
    case Confirmed => "confirmed"
    case Cancelled => "cancelled"
  }

  /** Form fields that only records written by the booking form carry; the dashboard's seed record
      has none of them. */
  datatype FormExtras = FormExtras(
    destination: string,
    passengers: int,
    email: string,
    phone: string,
    specialRequests: string)

  /** A record of the stored list under the key 'bookings'. A date field that the form left empty
      is `None`. */
  datatype StoredBooking = StoredBooking(
    id: string,
    firstName: string,
    lastName: string,
    destinationName: string,
    departureDate: Option<Date>,
    returnDate: Option<Date>,
    cabinClass: string,
    cabinClassName: string,
    cabinClassFeatures: seq<string>,
    status: Status,
    createdAt: string,
    price: int,
    launchPad: string,
    form: Option<FormExtras>)

  /** The shared `Booking` shape, which has no cabin name and no feature list. */
  datatype Booking = Booking(
    id: string,
    firstName: string,
    lastName: string,
    destinationName: string,
    departureDate: Option<Date>,
    returnDate: Option<Date>,
    cabinClass: string,
    status: Status,
    createdAt: string,
    price: int,
    launchPad: string)
}
