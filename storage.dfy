/** The browser's local storage, reduced to the one key the site uses, 'bookings'. A missing key
    reads as the empty list; serialising to and from JSON is the identity here. */
module Storage {
  import opened Records

  class BookingStore {
    var saved: seq<StoredBooking>

    /** A browser profile in which nothing has been stored yet. */
    constructor ()
      ensures saved == []
    {
      saved := [];
    }

    /** `JSON.parse(localStorage.getItem('bookings') || '[]')`. */
    method Load() returns (bookings: seq<StoredBooking>)
      ensures bookings == saved
    {
      bookings := saved;
    }

    /** `localStorage.setItem('bookings', JSON.stringify(bookings))`: the whole list is replaced. */
    method Save(bookings: seq<StoredBooking>)
      modifies this
      ensures saved == bookings
    {
      saved := bookings;
    }
  }
}
