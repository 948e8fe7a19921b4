# Dubai space travel booking core, in Dafny

This project models the booking logic of a small React site that sells trips to six space
destinations. The site has three parts with real logic:

- **Booking page.** It looks up the selected destination in the catalog, bounds the two date
  inputs, and resolves the price, cabin name and VIP features of the chosen cabin tier. On
  submit it appends a `pending` record to the booking list kept in the browser's local storage.
- **Dashboard page.** It loads that list, seeding one confirmed record on first use. It counts
  the upcoming trips and cancels bookings by identifier.
- **Utility module.** It maps a status to its badge colours and builds a fixed sample booking.

The static catalog and the fare table feed the booking page.

The modules follow the source:

| module | models |
|---|---|
| `Wrappers` | `Option` and `Result` |
| `Calendar` | a JavaScript `Date` in UTC: ECMAScript `MakeDay` day numbers, the overflow rules of `setDate`, `setMonth`, `setFullYear` and `setHours`, and the class `UtcDate` that the return-date code mutates |
| `Catalog` | `src/data/destinations.ts`, the lookup `destinations.find`, and the launch pads |
| `PriceLabels` | en-US grouping of whole dollar amounts (`toLocaleString`), which relates the catalog's "Starting at $N" texts to the fare table |
| `Fares` | the `orbitInfo` and `cabinClasses` tables of the booking page, and fare resolution in `handleSubmit` |
| `TripWindows` | `getMinDepartureDate`, `getMaxDepartureDate`, `getMinReturnDate` and `getMaxReturnDate` |
| `Records` | the stored booking record and the shared `Booking` type |
| `Storage` | local storage under the key `bookings`, as a class with a sequence field |
| `BookingPage` | the form, building the record, the read-append-write submit, and the tip index step |
| `DashboardPage` | the load-or-seed effect, `handleCancelBooking`, and the `upcomingTrips` count |
| `BookingUtils` | `getStatusColor` and `getSampleBooking` |

**Dates.** A date is `Date(year, month, day)` with a 1-based month.

- `Calendar.Normalize(y, m, d)` is the calendar day whose day number is `MakeDay(y, m, d)`. The
  month index may lie outside 1..12 and the day outside the month, as the `Date` setters allow.
- The return-date functions work in two steps:
  - They copy the departure `UtcDate` and call one setter, step by step as the page does.
  - They are proved equal to the value-level specifications `TripWindows.MinReturn` and
    `TripWindows.MaxReturn`. The ordering lemmas are stated on those specifications.

**Fares.** In the page, reading `.price` of `undefined` throws a `TypeError`. Fare resolution
models that throw as a `Result` failure. The model proves the failure unreachable for every
catalog destination and every value the cabin-class select offers.

## Model

| member | source | states |
|---|---|---|
| Calendar.Normalize | src/pages/Booking.tsx:225-240 | the result is always a valid calendar day, and its day number is `MakeDay(y, m, d)`: the month index carries into the year and the day carries into the neighbouring months |
| Calendar.NormalizeValid | src/pages/Booking.tsx:218-219 | a valid date is left as it is |
| Calendar.OrderByDayNumber | src/pages/Booking.tsx:244 | for valid dates, calendar (`yyyy-mm-dd`) order holds exactly when day-number order holds |
| Calendar.DayNumberInjective | src/pages/Booking.tsx:244 | two valid dates with the same day number are the same date |
| Calendar.AdvanceWindow | src/pages/Booking.tsx:222-273 | moving a valid date forward by months and days never goes back, and a move that is no shorter in months and days lands no earlier |
| Calendar.AddDaysDayNumber | src/pages/Booking.tsx:225 | `setDate(getDate() + n)` moves the day number by exactly `n` |
| Calendar.AddYearsAsMonths | src/pages/Booking.tsx:237 | `setFullYear(getFullYear() + n)` gives the same day as `setMonth(getMonth() + 12 * n)`, which is `Advance` by `12 * n` months |
| Calendar.MonthOverflowExample | src/pages/Booking.tsx:231 | 31 August moved six months ahead is 3 March of the next year, or 2 March when that year is a leap year |
| Calendar.LeapDayExample | src/pages/Booking.tsx:237 | a leap day moved one year ahead is 1 March |
| Calendar.UtcDate.constructor | src/pages/Booking.tsx:218-219 | `new Date('yyyy-mm-dd')` is midnight UTC of that valid day |
| Calendar.UtcDate.SetDate | src/pages/Booking.tsx:225 | the new day number is `MakeDay` of the old year and month with the given day of the month; the hour is kept |
| Calendar.UtcDate.SetMonth | src/pages/Booking.tsx:231 | the new day number is `MakeDay` of the old year and day with the given month index; the hour is kept |
| Calendar.UtcDate.SetFullYear | src/pages/Booking.tsx:237 | the new day number is `MakeDay` of the old month and day with the given year; the hour is kept |
| Calendar.UtcDate.SetHours | src/pages/Booking.tsx:228 | whole days of the hour count carry into the day number, and the rest becomes the hour |
| Catalog.CatalogIds | src/data/destinations.ts:11-96 | the catalog holds exactly six destinations, whose identifiers are the six keys in catalog order |
| Catalog.CatalogDistinct | src/data/destinations.ts:11-96 | no two destinations share an identifier |
| Catalog.CatalogIdSet | src/data/destinations.ts:13-83 | the set of catalog identifiers is exactly the six keys |
| Catalog.CatalogFeatures | src/data/destinations.ts:19-94 | every destination lists exactly four features |
| Catalog.FindIn | src/pages/Booking.tsx:98 | a found entry is in the list and carries the identifier, and nothing is found exactly when no entry carries it |
| Catalog.FindInUnique | src/pages/Booking.tsx:98 | with distinct identifiers, the entry found is exactly the one entry carrying the identifier |
| Catalog.FindInCatalog | src/pages/Booking.tsx:98 | a catalog lookup succeeds exactly for the six keys and yields the unique catalog entry with that identifier |
| Catalog.LaunchPadChoices | src/pages/Booking.tsx:495-506 | the launch-pad select offers the three pads of `src/data/launchPads.ts`, in order and with distinct identifiers, and none of them is the empty placeholder |
| Catalog.FindEmptySelection | src/pages/Booking.tsx:84 | the empty destination field selects nothing |
| PriceLabels.GroupedDigits | src/pages/Booking.tsx:427 | removing the commas from the en-US rendering of an amount leaves its plain decimal numeral |
| PriceLabels.GroupedValue | src/pages/Booking.tsx:427 | a rendered amount, read back without its commas, is the amount itself |
| PriceLabels.DigitsValue | src/pages/Booking.tsx:427 | the plain decimal numeral of an amount reads back as that amount |
| PriceLabels.StartingAtLabel | src/data/destinations.ts:16-86 | each of the six catalog amounts renders as its "Starting at $N" text |
| Fares.TierOf | src/pages/Booking.tsx:127 | a tier is found exactly for the keys `economy`, `luxury` and `vip`, and each of these keys yields its own tier of the table |
| Fares.TableKeys | src/pages/Booking.tsx:7-77 | the orbit table and the cabin table are keyed by exactly the six catalog identifiers |
| Fares.TablesMatchCatalog | src/pages/Booking.tsx:337 | every catalog destination has an orbit entry and a cabin table, so the unguarded `orbitInfo[id]` always finds one |
| Fares.TierPricesIncrease | src/pages/Booking.tsx:46-77 | within each destination economy < luxury < vip, and the vip tier lists two features |
| Fares.StartingPricesMatchEconomy | src/data/destinations.ts:11-96 | each destination's "Starting at $N" text states its economy price, grouped by threes with commas |
| Fares.FareResolution | src/pages/Booking.tsx:126-143 | with no destination or no cabin class the fare is `0`, `''` and `[]`; otherwise it is the tier's price and name, and the features are the destination's two vip features exactly when the tier is `vip` |
| Fares.ResolvesWithTable | src/pages/Booking.tsx:126-143 | a destination with a cabin table and a tier the select offers never throws |
| Fares.FareNeverThrowsForFormChoices | src/pages/Booking.tsx:423-433 | every value of the cabin-class select resolves without a `TypeError`, whatever the destination field holds |
| Fares.MarsVipFare | src/pages/Booking.tsx:52-55 | Mars Colony in the vip tier costs 2,000,000 in the "VIP Zero-G Elite" cabin, with its two features |
| TripWindows.DepartureBounds | src/pages/Booking.tsx:167-212 | with no selection or a daily destination, departure runs from today with no upper bound; a windowed destination has a non-empty window of valid days, from 1 January to 31 December of one year, that does not depend on today |
| TripWindows.DepartureWindowYears | src/pages/Booking.tsx:173-187 | the windows open on 1 January 2027 for Mars and Saturn, and on 1 January 2026 for Venus and Jupiter |
| TripWindows.ShiftDayNumber | src/pages/Booking.tsx:222-244 | the end of a stay is a valid day whose day number is `MakeDay` of the departure with the stay's months and whole days added |
| TripWindows.MoveToMinReturn | src/pages/Booking.tsx:223-242 | calling the destination's setter on the copy yields the departure moved by the shortest stay, and an unknown identifier leaves the copy as it is |
| TripWindows.GetMinReturnDate | src/pages/Booking.tsx:215-245 | the computed minimum return equals the value-level specification `MinReturn` |
| TripWindows.MoveToMaxReturn | src/pages/Booking.tsx:254-273 | calling the destination's setter on the copy yields the departure moved by the longest stay |
| TripWindows.GetMaxReturnDate | src/pages/Booking.tsx:248-276 | the computed maximum return equals the value-level specification `MaxReturn` |
| TripWindows.ReturnBoundsWithoutChoice | src/pages/Booking.tsx:216-249 | without a departure the minimum is today and there is no maximum; without a destination the minimum is the departure and there is no maximum |
| TripWindows.ReturnWindowOrdered | src/pages/Booking.tsx:222-273 | for every destination and valid departure: departure <= minimum return <= maximum return, with month and year overflow included |
| TripWindows.StaysNested | src/pages/Booking.tsx:223-273 | each destination's shortest stay is no longer, in months and in days, than its longest |
| TripWindows.StayWindowOrdered | src/pages/Booking.tsx:222-273 | a stay ends no earlier than its departure, and a stay that is no shorter ends no earlier |
| TripWindows.StayTable | src/pages/Booking.tsx:223-273 | the stays are 3-5 days, 2-4 hours, 6-9 months, 3-5 months, 1-2 years and 2-3 years, and both are known exactly for the catalog identifiers |
| TripWindows.MinReturnByStay | src/pages/Booking.tsx:222-244 | the minimum return's day number is `MakeDay` of the departure moved by the shortest stay |
| TripWindows.MaxReturnByStay | src/pages/Booking.tsx:254-275 | the maximum return's day number is `MakeDay` of the departure moved by the longest stay |
| TripWindows.SpaceHotelSameDay | src/pages/Booking.tsx:227-228 | the space hotel's hour stays never reach midnight, so both return bounds are the departure day |
| TripWindows.LunarGatewayReturnWindow | src/pages/Booking.tsx:224-225 | from a departure with five more days left in its month, the return falls 3 to 5 days later in the same month |
| TripWindows.MarsMonthOverflow | src/pages/Booking.tsx:230-231 | a Mars departure on 31 August has its earliest return on 3 March, or 2 March in a leap year |
| TripWindows.JupiterLeapDayOverflow | src/pages/Booking.tsx:236-237 | a Jupiter departure on a leap day has its earliest return on 1 March of the next year |
| Storage.BookingStore.constructor | src/pages/Booking.tsx:147 | an empty store reads as the empty list |
| Storage.BookingStore.Load | src/pages/Booking.tsx:147 | reading returns the stored list |
| Storage.BookingStore.Save | src/pages/Booking.tsx:150 | writing replaces the whole stored list |
| BookingPage.InitialForm | src/pages/Booking.tsx:83-95 | the destination field holds the `destination` query parameter, or is empty without one; the form starts on economy with one passenger and both dates empty |
| BookingPage.InitialFareIsEconomy | src/pages/Booking.tsx:84-88 | submitting the untouched form of a catalog destination resolves to its economy seat, at the price its "Starting at" label states |
| BookingPage.BuiltRecord | src/pages/Booking.tsx:131-144 | a built record is pending, carries the given id and timestamp, copies every form field verbatim, and embeds the resolved destination name and fare; a record is always built when the cabin class is one the select offers |
| BookingPage.SpaceHotelEconomyBooking | src/pages/Booking.tsx:126-144 | an economy booking of the space hotel is a pending record priced 350,000 for "Space Hotel Dubai" |
| BookingPage.HandleSubmit | src/pages/Booking.tsx:121-150 | a submission appends exactly the built record to the end of the stored list and keeps every earlier record in order; a failed fare lookup leaves the store untouched |
| BookingPage.NextTip | src/pages/Booking.tsx:115 | the next tip index stays below ten, steps by one and wraps from the last tip to the first |
| DashboardPage.FilterUpcoming | src/pages/Dashboard.tsx:36-38 | the upcoming records are exactly the pending and confirmed ones, and there are no more of them than records |
| DashboardPage.FilterUpcomingCounts | src/pages/Dashboard.tsx:36-38 | each upcoming record is kept as often as it occurs in the list, and no other record is kept, so the count is fixed |
| DashboardPage.FilterUpcomingAppend | src/pages/Dashboard.tsx:36-38 | order is kept: filtering a concatenation gives the filtered first part followed by the filtered second part |
| DashboardPage.CancelShape | src/pages/Dashboard.tsx:69-71 | cancelling keeps the length and the order; other identifiers are untouched, and matching records keep every field but the status, which becomes cancelled |
| DashboardPage.CancelUnknownId | src/pages/Dashboard.tsx:69-71 | an identifier no record carries leaves the list unchanged |
| DashboardPage.CancelIdempotent | src/pages/Dashboard.tsx:69-71 | cancelling twice is cancelling once |
| DashboardPage.CancelSplit | src/pages/Dashboard.tsx:69-71 | the cancelled list is the head record, cancelled if it matches, followed by the cancelled tail |
| DashboardPage.CancelNeverIncreasesUpcoming | src/pages/Dashboard.tsx:35-38 | cancelling never increases the number of upcoming trips |
| DashboardPage.CancelUpcomingDecreases | src/pages/Dashboard.tsx:68-74 | cancelling an upcoming record lowers the upcoming count |
| DashboardPage.CancelFromButtonKeepsSettled | src/pages/Dashboard.tsx:159-166 | with distinct identifiers, cancelling a pending record from its button changes no other record, so confirmed and cancelled records keep their status |
| DashboardPage.SharedIdCancelsConfirmed | src/pages/Dashboard.tsx:69-71 | when a confirmed record shares the identifier of a pending one, cancelling the pending one also cancels the confirmed one |
| DashboardPage.Dashboard.constructor | src/pages/Dashboard.tsx:32 | the page starts with an empty list over the given store |
| DashboardPage.Dashboard.UpcomingTrips | src/pages/Dashboard.tsx:36-38 | the upcoming count never exceeds the number of records |
| DashboardPage.Dashboard.Load | src/pages/Dashboard.tsx:40-66 | an empty store yields and persists exactly the confirmed seed record; a non-empty store is shown and kept unchanged |
| DashboardPage.Dashboard.CancelBooking | src/pages/Dashboard.tsx:68-74 | the shown list becomes the cancelled list, and the stored list equals it afterwards |
| DashboardPage.Dashboard.ClickCancel | src/pages/Dashboard.tsx:159-166 | a click on a pending row cancels that record, lowers the upcoming count and leaves storage in step with the page |
| BookingUtils.StatusColor | src/utils/bookingUtils.ts:3-14 | confirmed maps to green, pending to yellow and cancelled to red, each in both directions, and every other text maps to the gray default |
| BookingUtils.StatusColorsDistinct | src/utils/bookingUtils.ts:3-14 | the three statuses get three different badges, none of them gray |
| BookingUtils.SampleBooking | src/utils/bookingUtils.ts:24-36 | the sample is `sample-1`, confirmed, priced 50000 and stamped with the given time |
| BookingUtils.SampleTripOrdered | src/utils/bookingUtils.ts:24-36 | the sample trip has valid dates, returns after it departs, shows a green badge and leaves from a pad the form offers |

## Left out

- Rendering is not modelled: JSX, animation, Tailwind classes, routing, the confirmation and boarding-pass panels, and `src/pages/Destinations.tsx` with its local mock list.
- Timers are not modelled: the five-second `setInterval` of the tips and the `setTimeout` redirect. Only the index step `(prev + 1) % 10` is kept, as `BookingPage.NextTip`.
- `dubai-space-travel/src/main.tsx` is not part of this model; it is a browser-history redirect.
- Local storage and JSON are modelled as a sequence field that is read and replaced whole. Corrupt JSON, which the code does not guard against, is not modelled.
- `Date.now()` identifiers and `new Date().toISOString()` timestamps are parameters. Identifiers are not assumed to be unique, because the code does not make them so.
- Dates are modelled in UTC only:
  - `new Date('yyyy-mm-dd')` parses as UTC midnight.
  - `getDate`, `getMonth`, `getFullYear` and `getHours`, and the setters `setDate`, `setMonth`, `setFullYear` and `setHours`, all work in local time. They agree with UTC only in a UTC zone.
  - Daylight saving time and other zones are left out.
  - "Today" is a parameter.
- `formatDate` and the `toLocaleDateString` display of dates depend on the host locale and are left out.
- `PriceLabels.Grouped`: `price.toLocaleString()` in the cabin select uses the host's default locale. The model fixes en-US grouping (commas by threes), so `Fares.StartingPricesMatchEconomy` describes the select's labels only in a locale that groups that way.
- `Calendar.ValidDate`: years are unbounded. A JavaScript `Date` holds only about 8.64e15 milliseconds either side of 1970, that is, years -271821 to 275760.
  - Past that range a setter yields an Invalid Date, and `toISOString()` throws a `RangeError`.
  - So `getMinReturnDate` and `getMaxReturnDate` throw for departures near the end of the range, where the model returns a date.
  - Years of five or more digits print as `+010000-...`, which the date input's `min` and `max` ignore.
- `Fares.ResolveFare`: a cabin-class key that names an inherited `Object.prototype` member (`constructor`, `toString`, `valueOf`, ...) does not read as `undefined` in JavaScript.
  - In the page, `.price` of such a member is `undefined` without a throw, and `.name` is, for example, `"Object"`. The page then stores a record with no price.
  - The model treats these keys like any other non-tier key and returns `Failure(NoSuchTier)`.
  - The select never offers these keys; only an edited page can submit them.
- `BookingPage.FormData`: `passengers` is an integer. The page's `handleChange` stores the number input's value as a string, and that string is not modelled.
- `Catalog.Destination` keeps the identifier, name, price text, duration and features. The description and image URL are display text only and are not part of this model. Likewise the orbit table's strings are kept as data, but nothing is proved about them beyond their keys.
- `src/types/booking.ts` is kept as the `Records.Booking` type; it has no behaviour. The pads' names, locations and descriptions are display text only.
- `DashboardPage.Dashboard.CancelBooking`: cancelling does not check the record's status.
  - Cancelling matches on the identifier alone (`src/pages/Dashboard.tsx:69-71`).
  - Only the button at `src/pages/Dashboard.tsx:159-166` limits it to pending records, and `ClickCancel` models that button.
- `DashboardPage.CancelFromButtonKeepsSettled` assumes distinct identifiers. Without them, a cancel also hits confirmed records sharing the identifier, as `SharedIdCancelsConfirmed` shows.
