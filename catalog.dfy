/** The static reference data of the booking site: the destination catalog and the launch pads. */
module Catalog {
  import opened Wrappers

  const LunarGateway := "lunar-gateway"
  const MarsColony := "mars-colony"
  const SpaceHotel := "space-hotel"
  const VenusCloud := "venus-cloud"
  const JupiterMoon := "jupiter-moon"
  const SaturnRing := "saturn-ring"

  /** A destination of the catalog; `price` is the display text "Starting at $N". The description
      and the image URL, which only the catalog page displays, are not part of this model. */
  datatype Destination = Destination(
    id: string,
    name: string,
    price: string,
    duration: string,
    features: seq<string>)

  const Destinations: seq<Destination> := [
    Destination(
      LunarGateway,
      "Lunar Gateway Station",
      "Starting at $250,000",
      "3-5 days",
      ["Earth observation deck", "Microgravity training", "Space suit experience", "Lunar surface simulation"]),
    Destination(
      MarsColony,
      "Mars Colony Resort",
      "Starting at $1,200,000",
      "6-9 months",
      ["Martian surface exploration", "Red planet observation", "Mars habitat experience", "Space radiation protection training"]),
    Destination(
      SpaceHotel,
      "Space Hotel Dubai",
      "Starting at $350,000",
      "2-4 hours",
      ["Zero-gravity pool", "Space cuisine dining", "Earth observation lounge", "Orbital spacewalk experience"]),
    Destination(
      VenusCloud,
      "Venus Cloud City",
      "Starting at $850,000",
      "3-5 months",
      ["Cloud-top observation decks", "Venusian atmosphere tours", "Floating city exploration", "High-pressure environment training"]),
    Destination(
      JupiterMoon,
      "Jupiter's Moon Resort",
      "Starting at $1,500,000",
      "1-2 years",
      ["Ice surface exploration", "Subsurface ocean tours", "Jupiter observation", "Extreme cold training"]),
    Destination(
      SaturnRing,
      "Saturn Ring Station",
      "Starting at $2,000,000",
      "2-3 years",
      ["Ring system observation", "Saturn moon tours", "Long-duration space stay", "Advanced space training"])
  ]

  /** The identifiers of the catalog, in catalog order. */
  function Ids(ds: seq<Destination>): (ids: seq<string>)
    ensures |ids| == |ds|
    ensures forall i :: 0 <= i < |ds| ==> ids[i] == ds[i].id
  {
    if ds == [] then [] else [ds[0].id] + Ids(ds[1..])
  }

  /** No identifier occurs twice. */
  predicate DistinctIds(ds: seq<Destination>) {
    forall i, j :: 0 <= i < j < |ds| ==> ds[i].id != ds[j].id
  }

  const DestinationIds: set<string> := {LunarGateway, MarsColony, SpaceHotel, VenusCloud, JupiterMoon, SaturnRing}

  /** The catalog holds exactly six destinations, whose identifiers are the six known keys in
      catalog order. */
  lemma CatalogIds()
    ensures |Destinations| == 6
    ensures Ids(Destinations) == OrderedIds
  {
  }

  /** The six keys in catalog order. */
  const OrderedIds: seq<string> := [LunarGateway, MarsColony, SpaceHotel, VenusCloud, JupiterMoon, SaturnRing]

  /** The six keys differ from each other. */
  lemma OrderedIdsDistinct()
    ensures forall i, j :: 0 <= i < j < |OrderedIds| ==> OrderedIds[i] != OrderedIds[j]
  {
    assert LunarGateway[0] == 'l' && MarsColony[0] == 'm' && VenusCloud[0] == 'v' && JupiterMoon[0] == 'j';
    assert SpaceHotel[..2] == "sp" && SaturnRing[..2] == "sa";
  }

  /** No two destinations of the catalog share an identifier. */
  lemma CatalogDistinct()
    ensures DistinctIds(Destinations)
  {
    CatalogIds();
    OrderedIdsDistinct();
    var ids := Ids(Destinations);
    forall i, j | 0 <= i < j < |Destinations| ensures Destinations[i].id != Destinations[j].id {
      assert ids[i] == Destinations[i].id && ids[j] == Destinations[j].id;
    }
  }

  /** The set of catalog identifiers is exactly the six known keys. */
  lemma CatalogIdSet()
    ensures forall d :: d in Destinations ==> d.id in DestinationIds
    ensures forall id :: id in DestinationIds ==> exists d :: d in Destinations && d.id == id
  {
    CatalogIds();
    var ids := Ids(Destinations);
    forall d | d in Destinations ensures d.id in DestinationIds {
      var i :| 0 <= i < |Destinations| && Destinations[i] == d;
      assert ids[i] == d.id;
    }
    forall id | id in DestinationIds ensures exists d :: d in Destinations && d.id == id {
      assert ids[0] == Destinations[0].id && ids[1] == Destinations[1].id && ids[2] == Destinations[2].id;
      assert ids[3] == Destinations[3].id && ids[4] == Destinations[4].id && ids[5] == Destinations[5].id;
      var i :| 0 <= i < 6 && ids[i] == id;
      assert Destinations[i] in Destinations;
    }
  }

  /** Every destination lists exactly four features. */
  lemma CatalogFeatures()
    ensures forall d :: d in Destinations ==> |d.features| == 4
  {
  }

  /** `Array.prototype.find` over the destinations, matching on the identifier. */
  function FindIn(ds: seq<Destination>, id: string): (r: Option<Destination>)
    ensures r.Some? ==> r.value in ds && r.value.id == id
    ensures r.None? <==> forall d :: d in ds ==> d.id != id
  {
    if ds == [] then None
    else if ds[0].id == id then Some(ds[0])
    else FindIn(ds[1..], id)
  }

  /** The destination the booking form has selected: `destinations.find(dest => dest.id === id)`. */
  function Find(id: string): Option<Destination> {
    FindIn(Destinations, id)
  }

  /** With distinct identifiers, `find` returns the one entry carrying the identifier, and nothing
      for an identifier that no entry carries. */
  lemma {:induction false} FindInUnique(ds: seq<Destination>, id: string, d: Destination)
    requires DistinctIds(ds)
    ensures FindIn(ds, id) == Some(d) <==> d in ds && d.id == id
  {
    if ds != [] {
      if ds[0].id != id {
        assert DistinctIds(ds[1..]) by {
          forall i, j | 0 <= i < j < |ds[1..]| ensures ds[1..][i].id != ds[1..][j].id {
            assert ds[1..][i] == ds[i + 1] && ds[1..][j] == ds[j + 1];
          }
        }
        FindInUnique(ds[1..], id, d);
      } else if d in ds && d.id == id {
        var k :| 0 <= k < |ds| && ds[k] == d;
        assert k == 0;
      }
    }
  }

  /** Looking an identifier up in the catalog yields exactly the catalog entry with that
      identifier, and nothing for the empty selection or an unknown identifier. */
  lemma FindInCatalog(id: string)
    ensures Find(id).Some? <==> id in DestinationIds
    ensures forall d :: Find(id) == Some(d) <==> d in Destinations && d.id == id
  {
    CatalogDistinct();
    CatalogIdSet();
    forall d ensures Find(id) == Some(d) <==> d in Destinations && d.id == id {
      FindInUnique(Destinations, id, d);
    }
  }

  /** The empty selection of the form finds no destination. */
  lemma FindEmptySelection()
    ensures Find("") == None
  {
    FindInCatalog("");
    assert "" !in DestinationIds;
  }

  /** A launch pad; the booking form offers them in this order. */
  datatype LaunchPad = LaunchPad(id: string, name: string, location: string, description: string)

  const LaunchPads: seq<LaunchPad> := [
    LaunchPad("burj-khalifa", "Burj Khalifa Space Port", "Downtown Dubai", "World's tallest building launch facility"),
    LaunchPad("palm-jumeirah", "Palm Jumeirah Space Center", "Palm Jumeirah", "Exclusive beachfront launch facility"),
    LaunchPad("dubai-mall", "Dubai Mall Space Hub", "Downtown Dubai", "Luxury shopping mall launch center")
  ]

  /** The values of the launch-pad select besides its empty placeholder: one per pad, in order. */
  function PadIds(pads: seq<LaunchPad>): seq<string> {
    seq(|pads|, i requires 0 <= i < |pads| => pads[i].id)
  }

  /** The select offers three distinct pads, none of them the empty placeholder that the `required`
      select refuses to submit. */
  lemma LaunchPadChoices()
    ensures PadIds(LaunchPads) == ["burj-khalifa", "palm-jumeirah", "dubai-mall"]
    ensures forall i, j :: 0 <= i < j < |LaunchPads| ==> LaunchPads[i].id != LaunchPads[j].id
    ensures "" !in PadIds(LaunchPads)
  {
    var ids := PadIds(LaunchPads);
    assert ids[0] == "burj-khalifa" && ids[1] == "palm-jumeirah" && ids[2] == "dubai-mall";
    assert ids[0][0] == 'b' && ids[1][0] == 'p' && ids[2][0] == 'd';
  }
}
