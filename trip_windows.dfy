/** The bounds the booking form puts on its two date inputs: the departure window of each
    destination, and the return window computed from the departure with the `Date` setters. */
module TripWindows {
  import opened Wrappers
  import opened Calendar
  import opened Catalog

  // ---------------------------------------------------------------------------------------------
  // Departure bounds

  /** Destinations served every day, without a launch window. */
  predicate Continuous(id: string) {
    id == LunarGateway || id == SpaceHotel
  }

  /** Destinations that can only be left within a fixed launch window. */
  predicate Windowed(id: string) {
    id == MarsColony || id == VenusCloud || id == JupiterMoon || id == SaturnRing
  }

  /** The `min` of the departure input. */
  function MinDepartureDate(selected: Option<Destination>, today: Date): Date {
    if selected.None? then today
    else
      var id := selected.value.id;
      if id == LunarGateway || id == SpaceHotel then today
      else if id == MarsColony then Date(2027, 1, 1)
      else if id == VenusCloud then Date(2026, 1, 1)
      else if id == JupiterMoon then Date(2026, 1, 1)
      else if id == SaturnRing then Date(2027, 1, 1)
      else today
  }

  /** The `max` of the departure input; `None` is the empty string, no upper bound. */
  function MaxDepartureDate(selected: Option<Destination>): Option<Date> {
    if selected.None? then None
    else
      var id := selected.value.id;
      if id == LunarGateway || id == SpaceHotel then None
      else if id == MarsColony then Some(Date(2027, 12, 31))
      else if id == VenusCloud then Some(Date(2026, 12, 31))
      else if id == JupiterMoon then Some(Date(2026, 12, 31))
      else if id == SaturnRing then Some(Date(2027, 12, 31))
      else None
  }

  /** Without a selection, and for the two daily destinations, departure runs from today with no
      upper bound. A windowed destination has a fixed, non-empty window of valid days that does
      not depend on today: it opens on 1 January and closes on 31 December of one year. */
  lemma DepartureBounds(selected: Option<Destination>, today: Date)
    ensures selected.None? || Continuous(selected.value.id) ==>
      MinDepartureDate(selected, today) == today && MaxDepartureDate(selected).None?
    ensures selected.Some? && Windowed(selected.value.id) ==>
      var lo, hi := MinDepartureDate(selected, today), MaxDepartureDate(selected);
      && hi.Some? && ValidDate(lo) && ValidDate(hi.value) && NotAfter(lo, hi.value)
      && lo == Date(hi.value.year, 1, 1) && hi.value == Date(lo.year, 12, 31)
      && (forall other: Date :: MinDepartureDate(selected, other) == lo)
  {
  }

  /** The window years of the four windowed destinations. */
  lemma DepartureWindowYears(selected: Option<Destination>, today: Date)
    requires selected.Some?
    ensures selected.value.id in {MarsColony, SaturnRing} ==> MinDepartureDate(selected, today) == Date(2027, 1, 1)
    ensures selected.value.id in {VenusCloud, JupiterMoon} ==> MinDepartureDate(selected, today) == Date(2026, 1, 1)
  {
  }

  // ---------------------------------------------------------------------------------------------
  // Return bounds

  /** A length of stay, in the unit whose `Date` setter the page uses for it. */
  datatype Stay = Days(n: nat) | Hours(n: nat) | Months(n: nat) | Years(n: nat)

  /** The shortest stay of each destination; `None` for an identifier the page does not know. */
  function MinStay(id: string): Option<Stay> {
    if id == LunarGateway then Some(Days(3))
    else if id == SpaceHotel then Some(Hours(2))
    else if id == MarsColony then Some(Months(6))
    else if id == VenusCloud then Some(Months(3))
    else if id == JupiterMoon then Some(Years(1))
    else if id == SaturnRing then Some(Years(2))
    else None
  }

  /** The longest stay of each destination. */
  function MaxStay(id: string): Option<Stay> {
    if id == LunarGateway then Some(Days(5))
    else if id == SpaceHotel then Some(Hours(4))
    else if id == MarsColony then Some(Months(9))
    else if id == VenusCloud then Some(Months(5))
    else if id == JupiterMoon then Some(Years(2))
    else if id == SaturnRing then Some(Years(3))
    else None
  }

  /** The months a stay adds to the month index: `setFullYear(y + n)` is `MakeDay` of the month
      index moved by `12 * n`. */
  function StayMonths(s: Stay): nat {
    match s
    case Months(n) => n
    case Years(n) => 12 * n
    case _ => 0
  }

  /** The whole days a stay adds; `setHours(2)` and `setHours(4)` stay within the day. */
  function StayDays(s: Stay): nat {
    match s
    case Days(n) => n
    case Hours(n) => n / 24
    case _ => 0
  }

  /** The calendar day reached from midnight UTC of `d` after the stay, with the time of day
      dropped as `toISOString().split('T')[0]` does. */
  function Shift(d: Date, s: Stay): Date {
    Advance(d, StayMonths(s), StayDays(s))
  }

  /** A stay moves the month index by its months and then the day number by its whole days. */
  lemma ShiftDayNumber(d: Date, s: Stay)
    ensures ValidDate(Shift(d, s))
    ensures DayNumber(Shift(d, s)) == MonthStart(d.year, d.month + StayMonths(s)) + d.day - 1 + StayDays(s)
  {
  }

  /** A valid day whose day number is that of the stay's end is the stay's end. */
  lemma ShiftByDayNumber(r: Date, d: Date, s: Stay)
    requires ValidDate(r)
    requires DayNumber(r) == MonthStart(d.year, d.month + StayMonths(s)) + d.day - 1 + StayDays(s)
    ensures r == Shift(d, s)
  {
    DayNumberInjective(r, Shift(d, s));
  }

  /** The `min` of the return input. */
  function MinReturn(selected: Option<Destination>, departure: Option<Date>, today: Date): Date {
    if departure.None? then today
    else if selected.None? then departure.value
    else
      match MinStay(selected.value.id)
      case None => departure.value
      case Some(s) => Shift(departure.value, s)
  }

  /** The `max` of the return input; `None` is the empty string, no upper bound. */
  function MaxReturn(selected: Option<Destination>, departure: Option<Date>): Option<Date> {
    if departure.None? || selected.None? then None
    else
      match MaxStay(selected.value.id)
      case None => Some(departure.value)
      case Some(s) => Some(Shift(departure.value, s))
  }

  /** The `switch` of `getMinReturnDate`: moves `minReturnDate`, a copy of `departureDate`, by the
      destination's shortest stay with the matching setter; an unknown identifier leaves it as is. */
  method MoveToMinReturn(minReturnDate: UtcDate, departureDate: UtcDate, id: string)
    requires minReturnDate != departureDate && departureDate.Valid() && minReturnDate.Valid()
    requires minReturnDate.DatePart() == departureDate.DatePart() && departureDate.hours == 0
    modifies minReturnDate
    ensures minReturnDate.DatePart() ==
      (match MinStay(id) case Some(s) => Shift(departureDate.DatePart(), s) case None => departureDate.DatePart())
  {
    var dep := departureDate.DatePart();
    if id == LunarGateway {
      minReturnDate.SetDate(departureDate.day + 3);
      ShiftByDayNumber(minReturnDate.DatePart(), dep, Days(3));
    } else if id == SpaceHotel {
      minReturnDate.SetHours(departureDate.hours + 2);
      ShiftByDayNumber(minReturnDate.DatePart(), dep, Hours(2));
    } else if id == MarsColony {
      minReturnDate.SetMonth(departureDate.month + 6);
      ShiftByDayNumber(minReturnDate.DatePart(), dep, Months(6));
    } else if id == VenusCloud {
      minReturnDate.SetMonth(departureDate.month + 3);
      ShiftByDayNumber(minReturnDate.DatePart(), dep, Months(3));
    } else if id == JupiterMoon {
      minReturnDate.SetFullYear(departureDate.year + 1);
      YearShift(dep.year, 1, dep.month);
      ShiftByDayNumber(minReturnDate.DatePart(), dep, Years(1));
    } else if id == SaturnRing {
      minReturnDate.SetFullYear(departureDate.year + 2);
      YearShift(dep.year, 2, dep.month);
      ShiftByDayNumber(minReturnDate.DatePart(), dep, Years(2));
    }
  }

  /** Computes the `min` of the return input as the page does: it copies the departure `Date` and
      moves the copy with one setter. */
  method GetMinReturnDate(selected: Option<Destination>, departure: Option<Date>, today: Date) returns (r: Date)
    requires departure.Some? ==> ValidDate(departure.value)
    ensures r == MinReturn(selected, departure, today)
  {
    if departure.None? {
      return today;
    }
    var departureDate := new UtcDate(departure.value);
    var minReturnDate := new UtcDate(departureDate.DatePart());
    if selected.None? {
      return departure.value;
    }
    MoveToMinReturn(minReturnDate, departureDate, selected.value.id);
    r := minReturnDate.DatePart();
  }

  /** The `switch` of `getMaxReturnDate`: moves `maxReturnDate` by the destination's longest stay. */
  method MoveToMaxReturn(maxReturnDate: UtcDate, departureDate: UtcDate, id: string)
    requires maxReturnDate != departureDate && departureDate.Valid() && maxReturnDate.Valid()
    requires maxReturnDate.DatePart() == departureDate.DatePart() && departureDate.hours == 0
    modifies maxReturnDate
    ensures maxReturnDate.DatePart() ==
      (match MaxStay(id) case Some(s) => Shift(departureDate.DatePart(), s) case None => departureDate.DatePart())
  {
    var dep := departureDate.DatePart();
    if id == LunarGateway {
      maxReturnDate.SetDate(departureDate.day + 5);
      ShiftByDayNumber(maxReturnDate.DatePart(), dep, Days(5));
    } else if id == SpaceHotel {
      maxReturnDate.SetHours(departureDate.hours + 4);
      ShiftByDayNumber(maxReturnDate.DatePart(), dep, Hours(4));
    } else if id == MarsColony {
      maxReturnDate.SetMonth(departureDate.month + 9);
      ShiftByDayNumber(maxReturnDate.DatePart(), dep, Months(9));
    } else if id == VenusCloud {
      maxReturnDate.SetMonth(departureDate.month + 5);
      ShiftByDayNumber(maxReturnDate.DatePart(), dep, Months(5));
    } else if id == JupiterMoon {
      maxReturnDate.SetFullYear(departureDate.year + 2);
      YearShift(dep.year, 2, dep.month);
      ShiftByDayNumber(maxReturnDate.DatePart(), dep, Years(2));
    } else if id == SaturnRing {
      maxReturnDate.SetFullYear(departureDate.year + 3);
      YearShift(dep.year, 3, dep.month);
      ShiftByDayNumber(maxReturnDate.DatePart(), dep, Years(3));
    }
  }

  /** Computes the `max` of the return input as the page does. */
  method GetMaxReturnDate(selected: Option<Destination>, departure: Option<Date>) returns (r: Option<Date>)
    requires departure.Some? ==> ValidDate(departure.value)
    ensures r == MaxReturn(selected, departure)
  {
    if departure.None? || selected.None? {
      return None;
    }
    var departureDate := new UtcDate(departure.value);
    var maxReturnDate := new UtcDate(departureDate.DatePart());
    MoveToMaxReturn(maxReturnDate, departureDate, selected.value.id);
    r := Some(maxReturnDate.DatePart());
  }

  /** Without a departure the return input starts today and is unbounded; without a destination it
      starts on the departure day and is unbounded. */
  lemma ReturnBoundsWithoutChoice(selected: Option<Destination>, departure: Option<Date>, today: Date)
    ensures departure.None? ==> MinReturn(selected, departure, today) == today && MaxReturn(selected, departure).None?
    ensures departure.Some? && selected.None? ==>
      MinReturn(selected, departure, today) == departure.value && MaxReturn(selected, departure).None?
  {
  }

  /** For a chosen destination and departure the return window is ordered:
      departure <= minimum return <= maximum return, month and year overflow included. */
  lemma ReturnWindowOrdered(selected: Option<Destination>, dep: Date, today: Date)
    requires selected.Some? && ValidDate(dep)
    ensures MaxReturn(selected, Some(dep)).Some?
    ensures NotAfter(dep, MinReturn(selected, Some(dep), today))
    ensures NotAfter(MinReturn(selected, Some(dep), today), MaxReturn(selected, Some(dep)).value)
  {
    var id := selected.value.id;
    StaysNested(id);
    if MinStay(id).Some? {
      StayWindowOrdered(dep, MinStay(id).value, MaxStay(id).value);
    }
  }

  /** Every destination's shortest stay is no longer, in months and in whole days, than its
      longest, and the two are known for the same identifiers. */
  lemma StaysNested(id: string)
    ensures MinStay(id).Some? <==> MaxStay(id).Some?
    ensures MinStay(id).Some? ==>
      StayMonths(MinStay(id).value) <= StayMonths(MaxStay(id).value) &&
      StayDays(MinStay(id).value) <= StayDays(MaxStay(id).value)
  {
  }

  /** A stay ends no earlier than its departure, and a stay no shorter in months and in days ends
      no earlier than a shorter one. */
  lemma StayWindowOrdered(dep: Date, lo: Stay, hi: Stay)
    requires ValidDate(dep)
    requires StayMonths(lo) <= StayMonths(hi) && StayDays(lo) <= StayDays(hi)
    ensures NotAfter(dep, Shift(dep, lo))
    ensures NotAfter(Shift(dep, lo), Shift(dep, hi))
  {
    AdvanceWindow(dep, StayMonths(lo), StayDays(lo), StayMonths(hi), StayDays(hi));
  }

  /** The stay table: three to five days at the lunar gateway, two to four hours at the space
      hotel, six to nine months on Mars, three to five months at Venus, one to two years at
      Jupiter and two to three years at Saturn. Every catalog destination has both stays. */
  lemma StayTable(id: string)
    ensures id == LunarGateway ==> MinStay(id) == Some(Days(3)) && MaxStay(id) == Some(Days(5))
    ensures id == SpaceHotel ==> MinStay(id) == Some(Hours(2)) && MaxStay(id) == Some(Hours(4))
    ensures id == MarsColony ==> MinStay(id) == Some(Months(6)) && MaxStay(id) == Some(Months(9))
    ensures id == VenusCloud ==> MinStay(id) == Some(Months(3)) && MaxStay(id) == Some(Months(5))
    ensures id == JupiterMoon ==> MinStay(id) == Some(Years(1)) && MaxStay(id) == Some(Years(2))
    ensures id == SaturnRing ==> MinStay(id) == Some(Years(2)) && MaxStay(id) == Some(Years(3))
    ensures MinStay(id).Some? <==> id in DestinationIds
    ensures MaxStay(id).Some? <==> id in DestinationIds
  {
  }

  /** For a destination with a known shortest stay, the `min` of the return input is `MakeDay` of
      the departure with the stay's months added to the month and its whole days to the day. */
  lemma MinReturnByStay(selected: Option<Destination>, dep: Date, today: Date, s: Stay)
    requires selected.Some? && MinStay(selected.value.id) == Some(s)
    ensures DayNumber(MinReturn(selected, Some(dep), today)) == MonthStart(dep.year, dep.month + StayMonths(s)) + dep.day - 1 + StayDays(s)
  {
    ShiftDayNumber(dep, s);
  }

  /** The same for the `max` of the return input and the longest stay. */
  lemma MaxReturnByStay(selected: Option<Destination>, dep: Date, s: Stay)
    requires selected.Some? && MaxStay(selected.value.id) == Some(s)
    ensures MaxReturn(selected, Some(dep)).Some?
    ensures DayNumber(MaxReturn(selected, Some(dep)).value) == MonthStart(dep.year, dep.month + StayMonths(s)) + dep.day - 1 + StayDays(s)
  {
    ShiftDayNumber(dep, s);
  }

  /** The hour stays of the space hotel never reach midnight, so both return bounds are the
      departure day itself. */
  lemma SpaceHotelSameDay(selected: Option<Destination>, dep: Date, today: Date)
    requires selected.Some? && selected.value.id == SpaceHotel && ValidDate(dep)
    ensures MinReturn(selected, Some(dep), today) == dep
    ensures MaxReturn(selected, Some(dep)) == Some(dep)
  {
    assert StayMonths(Hours(2)) == StayDays(Hours(2)) == StayMonths(Hours(4)) == StayDays(Hours(4)) == 0;
    NormalizeValid(dep);
  }

  /** Lunar Gateway, departing on a day with five more days left in its month: the return falls
      between three and five days later in the same month. */
  lemma LunarGatewayReturnWindow(selected: Option<Destination>, dep: Date, today: Date)
    requires selected.Some? && selected.value.id == LunarGateway
    requires ValidDate(dep) && dep.day + 5 <= DaysInMonth(dep.year, dep.month)
    ensures MinReturn(selected, Some(dep), today) == Date(dep.year, dep.month, dep.day + 3)
    ensures MaxReturn(selected, Some(dep)) == Some(Date(dep.year, dep.month, dep.day + 5))
  {
    assert CarryYear(dep.year, dep.month) == dep.year && CarryMonth(dep.month) == dep.month;
  }

  /** Mars Colony, departing on 31 August: six months later is "31 February", which the `Date`
      setter carries over to 3 March (2 March in a leap year), past the end of February. */
  lemma MarsMonthOverflow(selected: Option<Destination>, y: int, today: Date)
    requires selected.Some? && selected.value.id == MarsColony
    ensures MinReturn(selected, Some(Date(y, 8, 31)), today) == Date(y + 1, 3, if IsLeapYear(y + 1) then 2 else 3)
  {
    MonthOverflowExample(y);
    assert Shift(Date(y, 8, 31), Months(6)) == Advance(Date(y, 8, 31), 6, 0);
  }

  /** Jupiter's Moon, departing on a leap day: one year later is carried over to 1 March. */
  lemma JupiterLeapDayOverflow(selected: Option<Destination>, y: int, today: Date)
    requires selected.Some? && selected.value.id == JupiterMoon && IsLeapYear(y)
    ensures MinReturn(selected, Some(Date(y, 2, 29)), today) == Date(y + 1, 3, 1)
  {
    var z := y + 1;
    assert !IsLeapYear(z);
    assert CarryYear(y, 14) == z && CarryMonth(14) == 2;
    assert CarryYear(y, 15) == z && CarryMonth(15) == 3;
    NormalizeCarry(y, 14, 29);
    NormalizeInMonth(y, 15, 1);
  }
}
