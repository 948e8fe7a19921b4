/** Helpers shared by the pages: the badge colour of a status and the fixed sample booking. */
module BookingUtils {
  import opened Wrappers
  import opened Calendar
  import opened Records
  import opened Catalog

  const Green := "bg-green-100 text-green-800"
  const Yellow := "bg-yellow-100 text-yellow-800"
  const Red := "bg-red-100 text-red-800"
  const Gray := "bg-gray-100 text-gray-800"

  /** The badge classes of a status text; any text that is not a status gets the gray default. */
  function StatusColor(status: string): (r: string)
    ensures r == Green <==> status == "confirmed"
    ensures r == Yellow <==> status == "pending"
    ensures r == Red <==> status == "cancelled"
    ensures r == Gray <==> status !in {"confirmed", "pending", "cancelled"}
  {
    if status == "confirmed" then Green
    else if status == "pending" then Yellow
    else if status == "cancelled" then Red
    else Gray
  }

  /** The three statuses get three different badges, none of them the default. */
  lemma StatusColorsDistinct(s: Status, t: Status)
    ensures StatusColor(StatusName(s)) != Gray
    ensures StatusColor(StatusName(s)) == StatusColor(StatusName(t)) <==> s == t
  {
  }

  /** The fixed sample booking, stamped with the given creation time. */
  function SampleBooking(createdAt: string): (b: Booking)
    ensures b.id == "sample-1" && b.status == Confirmed && b.price == 50000
    ensures b.createdAt == createdAt
  {
    Booking("sample-1", "John", "Doe", "Lunar Gateway", Some(Date(2024, 6, 15)), Some(Date(2024, 6, 20)),
      "luxury", Confirmed, createdAt, 50000, "burj-khalifa")
  }

  /** The sample trip has real dates and returns after it departs. */
  lemma SampleTripOrdered(createdAt: string)
    ensures var b := SampleBooking(createdAt);
      && b.departureDate.Some? && b.returnDate.Some?
      && ValidDate(b.departureDate.value) && ValidDate(b.returnDate.value)
      && NotAfter(b.departureDate.value, b.returnDate.value)
      && StatusColor(StatusName(b.status)) == Green
      && b.launchPad in PadIds(LaunchPads)
  {
    LaunchPadChoices();
  }
}
