/** The per-destination tables of the booking form, the "Starting at" labels of the catalog, and
    the fare a submission resolves for a destination and a cabin class. */
module Fares {
  import opened Wrappers
  import opened Catalog
  import opened PriceLabels

  // ---------------------------------------------------------------------------------------------
  // Tables

  /** What the form shows about reaching a destination. */
  datatype OrbitInfo = OrbitInfo(distance: string, availability: string, duration: string, alert: string)

  const OrbitTable: map<string, OrbitInfo> := map[
    LunarGateway := OrbitInfo("384,000 km", "Every week (always in near orbit)", "~3–5 days",
      "Available year-round with weekly departures"),
    MarsColony := OrbitInfo("~225 million km", "Every 26 months (Mars-Earth opposition)", "~6–9 months",
      "Next launch window: 2027 (Mars-Earth opposition)"),
    SpaceHotel := OrbitInfo("~500 km", "Daily trips (continuous availability)", "~2–4 hours",
      "Available daily with multiple departure times"),
    VenusCloud := OrbitInfo("~41 million km", "Every 19 months (Earth-Venus inferior conjunction)", "~3–5 months",
      "Next launch window: 2026 (Venus inferior conjunction)"),
    JupiterMoon := OrbitInfo("~628 million km", "Every 13 months (best launch windows)", "~1–2 years",
      "Next launch window: 2026 (Optimal gravity assist trajectory)"),
    SaturnRing := OrbitInfo("~1.2 billion km", "Every 12–15 months (long window)", "~2–3 years",
      "Next launch window: 2027 (Extended gravity assist window)")
  ]

  /** One cabin tier of a destination. Only the `vip` tier has features in the table; the other
      tiers have none, written here as the empty list. */
  datatype Cabin = Cabin(name: string, price: nat, features: seq<string>)

  datatype CabinTiers = CabinTiers(economy: Cabin, luxury: Cabin, vip: Cabin)

  const CabinClasses: map<string, CabinTiers> := map[
    LunarGateway := CabinTiers(
      Cabin("Economy Shuttle Seat", 250000, []),
      Cabin("Private Cabin", 350000, []),
      Cabin("VIP Zero-G Elite", 500000, ["Spacewalk Experience", "AI Concierge"])),
    MarsColony := CabinTiers(
      Cabin("Economy Shuttle Seat", 1200000, []),
      Cabin("Luxury Cabin", 1500000, []),
      Cabin("VIP Zero-G Elite", 2000000, ["VIP Pod", "Mars Rover Tour"])),
    SpaceHotel := CabinTiers(
      Cabin("Economy Shuttle Seat", 350000, []),
      Cabin("Luxury Cabin", 500000, []),
      Cabin("VIP Zero-G Elite", 750000, ["Earth-View Suite", "Space Spa Access"])),
    VenusCloud := CabinTiers(
      Cabin("Economy Shuttle Seat", 850000, []),
      Cabin("Luxury Cabin", 1000000, []),
      Cabin("VIP Zero-G Elite", 1300000, ["Cloud Cruise Experience", "AI Guide"])),
    JupiterMoon := CabinTiers(
      Cabin("Economy Shuttle Seat", 1500000, []),
      Cabin("Luxury Cabin", 2000000, []),
      Cabin("VIP Zero-G Elite", 2500000, ["Europa Cave Tour", "VIP Suite"])),
    SaturnRing := CabinTiers(
      Cabin("Economy Shuttle Seat", 2000000, []),
      Cabin("Luxury Cabin", 2500000, []),
      Cabin("VIP Zero-G Elite", 3200000, ["Ringside Villa", "AI Butler"]))
  ]

  /** The values the cabin-class select can hold: the empty choice and the three tiers. */
  const CabinSelectOptions: set<string> := {"", "economy", "luxury", "vip"}

  /** `cabinClasses[id][cabinClass]`: the tier a key names, and `None` (JavaScript's `undefined`)
      for any other key; see `ResolveFare` for the keys JavaScript resolves through the prototype. */
  function TierOf(tiers: CabinTiers, cabinClass: string): (r: Option<Cabin>)
    ensures r.Some? <==> cabinClass in {"economy", "luxury", "vip"}
    ensures cabinClass == "economy" ==> r == Some(tiers.economy)
    ensures cabinClass == "luxury" ==> r == Some(tiers.luxury)
    ensures cabinClass == "vip" ==> r == Some(tiers.vip)
  {
    if cabinClass == "economy" then Some(tiers.economy)
    else if cabinClass == "luxury" then Some(tiers.luxury)
    else if cabinClass == "vip" then Some(tiers.vip)
    else None
  }

  /** The orbit table and the cabin table are keyed by the six catalog identifiers. */
  lemma TableKeys()
    ensures OrbitTable.Keys == DestinationIds
    ensures CabinClasses.Keys == DestinationIds
  {
  }

  /** Every catalog destination has an orbit entry and a cabin table, so the page's unguarded
      `orbitInfo[id]` and `cabinClasses[id]` always find an entry for a selected destination. */
  lemma TablesMatchCatalog()
    ensures forall d :: d in Destinations ==> d.id in OrbitTable && d.id in CabinClasses
  {
    CatalogIdSet();
    TableKeys();
  }

  /** Within every destination the tiers are priced economy < luxury < vip, and the vip tier
      lists exactly two features. */
  lemma TierPricesIncrease()
    ensures forall id :: id in CabinClasses ==>
      CabinClasses[id].economy.price < CabinClasses[id].luxury.price < CabinClasses[id].vip.price
    ensures forall id :: id in CabinClasses ==> |CabinClasses[id].vip.features| == 2
  {
  }

  // ---------------------------------------------------------------------------------------------
  // "Starting at" labels of the catalog

  /** The "Starting at $N" text of each catalog entry states that destination's economy price. */
  lemma StartingPricesMatchEconomy()
    ensures forall i :: 0 <= i < |Destinations| ==>
      && Destinations[i].id in CabinClasses
      && Destinations[i].price == StartingAt(CabinClasses[Destinations[i].id].economy.price)
  {
    forall i | 0 <= i < |Destinations|
      ensures Destinations[i].id in CabinClasses
      ensures Destinations[i].price == StartingAt(CabinClasses[Destinations[i].id].economy.price)
    {
      StartingAtLabel(CabinClasses[Destinations[i].id].economy.price);
    }
  }

  // ---------------------------------------------------------------------------------------------
  // Fare resolution

  /** Reading `.price` of `undefined` throws a TypeError in the page: either the destination has no
      cabin table or the cabin class is not a tier. A key naming an inherited `Object.prototype`
      member (`constructor`, `toString`, ...) does not throw in JavaScript; the model treats it as
      any other non-tier key. */
  datatype FareError = NoCabinTable | NoSuchTier

  /** Price, cabin name and vip features of a submission. */
  datatype Fare = Fare(price: int, name: string, features: seq<string>)

  /** The price, cabin name and feature list that a submission resolves for the selected
      destination and the chosen cabin class. */
  function ResolveFare(selected: Option<Destination>, cabinClass: string): Result<Fare, FareError> {
    if selected.Some? && cabinClass != "" then
      var id := selected.value.id;
      if id !in CabinClasses then Failure(NoCabinTable)
      else
        match TierOf(CabinClasses[id], cabinClass)
        case None => Failure(NoSuchTier)
        case Some(cabin) =>
          Success(Fare(cabin.price, cabin.name,
            if cabinClass == "vip" then CabinClasses[id].vip.features else []))
    else
      Success(Fare(0, "", []))
  }

  /** With no destination or no cabin class the fare is 0, '' and []; for a catalog destination and
      a tier it is that tier's table entry, and the feature list is the destination's two vip
      features exactly when the tier is vip. */
  lemma FareResolution(selected: Option<Destination>, cabinClass: string)
    ensures selected.None? || cabinClass == "" ==> ResolveFare(selected, cabinClass) == Success(Fare(0, "", []))
    ensures selected.Some? && selected.value in Destinations && cabinClass in {"economy", "luxury", "vip"} ==>
      var tiers := CabinClasses[selected.value.id];
      var cabin := TierOf(tiers, cabinClass).value;
      && ResolveFare(selected, cabinClass).Success?
      && ResolveFare(selected, cabinClass).value.price == cabin.price
      && ResolveFare(selected, cabinClass).value.name == cabin.name
      && (|ResolveFare(selected, cabinClass).value.features| == 2 <==> cabinClass == "vip")
      && (cabinClass == "vip" ==> ResolveFare(selected, cabinClass).value.features == tiers.vip.features)
      && (cabinClass != "vip" ==> ResolveFare(selected, cabinClass).value.features == [])
  {
    TablesMatchCatalog();
    TierPricesIncrease();
  }

  /** Every value the cabin-class select can hold resolves without a TypeError, whichever
      identifier the destination field holds. */
  lemma FareNeverThrowsForFormChoices(destination: string, cabinClass: string)
    requires cabinClass in CabinSelectOptions
    ensures ResolveFare(Find(destination), cabinClass).Success?
  {
    FindInCatalog(destination);
    TableKeys();
    ResolvesWithTable(Find(destination), cabinClass);
  }

  /** A destination that has a cabin table and a cabin class the select offers always resolve. */
  lemma ResolvesWithTable(selected: Option<Destination>, cabinClass: string)
    requires selected.Some? ==> selected.value.id in CabinClasses
    requires cabinClass in CabinSelectOptions
    ensures ResolveFare(selected, cabinClass).Success?
  {
  }

  /** Mars Colony in the vip tier costs 2,000,000 in the "VIP Zero-G Elite" cabin. */
  lemma MarsVipFare()
    ensures ResolveFare(Find(MarsColony), "vip") == Success(Fare(2000000, "VIP Zero-G Elite", ["VIP Pod", "Mars Rover Tour"]))
  {
    FindInCatalog(MarsColony);
  }

}
