/** The booking form: its fields, the record a submission builds and appends to the stored list,
    and the rotating travel tips. */
module BookingPage {
  import opened Wrappers
  import opened Calendar
  import opened Catalog
  import opened Records
  import opened Storage
  import opened Fares
  import opened PriceLabels

  // ---------------------------------------------------------------------------------------------
  // Submission

  /** The booking form's fields; an empty date field is `None`. */
  datatype FormData = FormData(
    destination: string,
    departureDate: Option<Date>,
    returnDate: Option<Date>,
    passengers: int,
    cabinClass: string,
    specialRequests: string,
    firstName: string,
    lastName: string,
    email: string,
    phone: string,
    launchPad: string)

  /** The form as first shown: the `destination` query parameter (or nothing), economy, one
      passenger, everything else empty. */
  function InitialForm(destinationParam: Option<string>): (f: FormData)
    ensures f.destination == (if destinationParam.Some? then destinationParam.value else "")
    ensures f.cabinClass == "economy" && f.cabinClass in CabinSelectOptions && f.passengers == 1
    ensures f.departureDate.None? && f.returnDate.None?
  {
    FormData(if destinationParam.Some? then destinationParam.value else "", None, None, 1,
      "economy", "", "", "", "", "", "")
  }

  /** Submitting the untouched form of a catalog destination books its economy seat at the price its
      "Starting at" label states. */
  lemma InitialFareIsEconomy(id: string)
    requires id in DestinationIds
    ensures var fare := ResolveFare(Find(InitialForm(Some(id)).destination), InitialForm(Some(id)).cabinClass);
      && fare.Success? && id in CabinClasses && Find(id).Some?
      && fare.value.price == CabinClasses[id].economy.price
      && fare.value.name == CabinClasses[id].economy.name
      && Find(id).value.price == StartingAt(fare.value.price)
  {
    var form := InitialForm(Some(id));
    assert form.destination == id && form.cabinClass == "economy";
    FindInCatalog(id);
    var d := Find(id).value;
    assert d in Destinations && d.id == id;
    FareResolution(Find(id), "economy");
    TableKeys();
    var i :| 0 <= i < |Destinations| && Destinations[i] == d;
    StartingPricesMatchEconomy();
  }

  /** The record a submission builds, or the TypeError the fare lookup throws. */
  function BuildBooking(form: FormData, id: string, createdAt: string): Result<StoredBooking, FareError> {
    var selected := Find(form.destination);
    match ResolveFare(selected, form.cabinClass)
    case Failure(e) => Failure(e)
    case Success(fare) =>
      Success(StoredBooking(
        id, form.firstName, form.lastName,
        if selected.Some? then selected.value.name else "",
        form.departureDate, form.returnDate, form.cabinClass,
        fare.name, fare.features, Pending, createdAt, fare.price, form.launchPad,
        Some(FormExtras(form.destination, form.passengers, form.email, form.phone, form.specialRequests))))
  }

  /** A built record is pending, carries the given id and timestamp, copies every form field
      verbatim and embeds the resolved destination name and fare; it is built whenever the cabin
      class is one the select offers. */
  lemma BuiltRecord(form: FormData, id: string, createdAt: string)
    ensures form.cabinClass in CabinSelectOptions ==> BuildBooking(form, id, createdAt).Success?
    ensures BuildBooking(form, id, createdAt).Success? ==>
      var b, selected := BuildBooking(form, id, createdAt).value, Find(form.destination);
      && ResolveFare(selected, form.cabinClass) == Success(Fare(b.price, b.cabinClassName, b.cabinClassFeatures))
      && b.status == Pending && b.id == id && b.createdAt == createdAt
      && b.firstName == form.firstName && b.lastName == form.lastName
      && b.departureDate == form.departureDate && b.returnDate == form.returnDate
      && b.cabinClass == form.cabinClass && b.launchPad == form.launchPad
      && b.form == Some(FormExtras(form.destination, form.passengers, form.email, form.phone, form.specialRequests))
      && (selected.Some? ==> b.destinationName == selected.value.name)
      && (selected.None? ==> b.destinationName == "" && b.price == 0 && b.cabinClassName == "")
  {
    if form.cabinClass in CabinSelectOptions {
      FareNeverThrowsForFormChoices(form.destination, form.cabinClass);
    }
  }

  /** An economy booking of the space hotel is a pending record priced 350,000. */
  lemma SpaceHotelEconomyBooking(form: FormData, id: string, createdAt: string)
    requires form.destination == SpaceHotel && form.cabinClass == "economy"
    ensures BuildBooking(form, id, createdAt).Success?
    ensures BuildBooking(form, id, createdAt).value.status == Pending
    ensures BuildBooking(form, id, createdAt).value.price == 350000
    ensures BuildBooking(form, id, createdAt).value.destinationName == "Space Hotel Dubai"
  {
    FindInCatalog(SpaceHotel);
  }

  /** The form's submit handler: resolve the fare, build the record, then read the stored list and
      write it back with the record appended. A TypeError while resolving the fare leaves the
      store untouched. */
  method HandleSubmit(store: BookingStore, form: FormData, id: string, createdAt: string)
    returns (booking: Result<StoredBooking, FareError>)
    modifies store
    ensures booking == BuildBooking(form, id, createdAt)
    ensures booking.Success? ==> store.saved == old(store.saved) + [booking.value]
    ensures booking.Failure? ==> store.saved == old(store.saved)
  {
    booking := BuildBooking(form, id, createdAt);
    if booking.Success? {
      var existingBookings := store.Load();
      store.Save(existingBookings + [booking.value]);
    }
  }

  // ---------------------------------------------------------------------------------------------
  // Travel tips

  const TipCount := 10

  /** The tip shown after `prev` when the five-second timer fires. */
  function NextTip(prev: nat): (r: nat)
    ensures r < TipCount
    ensures prev < TipCount - 1 ==> r == prev + 1
    ensures prev == TipCount - 1 ==> r == 0
  {
    (prev + 1) % TipCount
  }
}
