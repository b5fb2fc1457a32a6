/**
  The concrete world of `roboworld/world_data.py`: Alpha City with the one
  neighborhood Central Yard, its three regions Square, Workshop and Station,
  and the robots Bolt (Square) and Ada (Workshop) with their dialog graphs.
 */
module WorldData {
  import opened Wrappers
  import opened Models

  /** Ada teaches the station override code. */
  const AdaDialog: Dialog := map[
    "start" := DialogNode("start", [
      DialogChoice(Some("station_info")),
      DialogChoice(Some("stickers"))]),
    "stickers" := DialogNode("stickers", [
      DialogChoice(Some("station_info"))]),
    "station_info" := DialogNode("station_info", [
      DialogChoice(None, ["gain:ORANGE-7"])])
  ]

  const Ada: Robot := Robot("Ada", AdaDialog, "start")

  /** Bolt only gives a hint. */
  const BoltDialog: Dialog := map[
    "start" := DialogNode("start", [
      DialogChoice(Some("about_ada")),
      DialogChoice(None)]),
    "about_ada" := DialogNode("about_ada", [
      DialogChoice(None)])
  ]

  const Bolt: Robot := Robot("Bolt", BoltDialog, "start")

  const Square: Region := Region("square", map["east" := "workshop", "south" := "station"], [Bolt])

  const Workshop: Region := Region("workshop", map["west" := "square"], [Ada])

  const Station: Region := Region("station", map["north" := "square"], [], isTrainStation := true, stationUnlocked := false)

  /**
    The dict comprehension `{r.key: r for r in regions}`: each region stored
    under its own key; for a repeated key the later region wins.
   */
  function KeyedRegions(regions: seq<Region>): (m: map<string, Region>)
    ensures forall k :: k in m ==> m[k].key == k && m[k] in regions
    ensures forall r :: r in regions ==> r.key in m
    ensures |regions| > 0 ==> m[regions[|regions| - 1].key] == regions[|regions| - 1]
  {
    if regions == [] then map[]
    else
      var last := regions[|regions| - 1];
      KeyedRegions(regions[..|regions| - 1])[last.key := last]
  }

  /** For a repeated key the later region wins: a region is stored unless a later one has its key. */
  lemma {:induction false} KeyedRegionsLaterWins(regions: seq<Region>, i: nat)
    requires i < |regions|
    requires forall j :: i < j < |regions| ==> regions[j].key != regions[i].key
    ensures KeyedRegions(regions)[regions[i].key] == regions[i]
  {
    if i < |regions| - 1 {
      var init := regions[..|regions| - 1];
      assert init[i] == regions[i];
      KeyedRegionsLaterWins(init, i);
    }
  }

  const CentralYard: Neighborhood := Neighborhood(KeyedRegions([Square, Workshop, Station]), "station")

  const AlphaCity: City := City(map["central_yard" := CentralYard], ["central_yard"])

  /**
    `create_world()`: every neighborhood has its station region, every
    region is stored under its own key, and every connection stays inside
    its neighborhood.
   */
  function CreateWorld(): (w: World)
    ensures WorldWellFormed(w)
    ensures w.cities.Keys == {"alpha_city"}
  {
    AlphaWorldWellFormed();
    World(map["alpha_city" := AlphaCity])
  }

  /** The world of Alpha City alone is well formed. */
  lemma AlphaWorldWellFormed()
    ensures WorldWellFormed(World(map["alpha_city" := AlphaCity]))
  {
    AlphaCityWellFormed();
  }

  /** The comprehension at line 137 yields exactly the three regions, each under its own key. */
  lemma CentralYardRegions()
    ensures CentralYard.regions == map["square" := Square, "workshop" := Workshop, "station" := Station]
  {
    var rs := [Square, Workshop, Station];
    KeyedRegionsLaterWins(rs, 0);
    KeyedRegionsLaterWins(rs, 1);
    KeyedRegionsLaterWins(rs, 2);
    assert rs[0] == Square && rs[1] == Workshop && rs[2] == Station;
    assert CentralYard.regions.Keys == {"square", "workshop", "station"};
  }

  /** Alpha City lists its one neighborhood once, in its key order. */
  lemma AlphaCityWellFormed()
    ensures CityWellFormed(AlphaCity)
  {
    CentralYardWellFormed();
  }

  lemma CentralYardWellFormed()
    ensures NeighborhoodWellFormed(CentralYard)
  {
    CentralYardRegions();
    CentralYardConnected(CentralYard.regions);
  }

  /** Each connection of the three regions names one of them. */
  lemma CentralYardConnected(regions: map<string, Region>)
    requires regions == map["square" := Square, "workshop" := Workshop, "station" := Station]
    ensures ConnectionsIn(Square, regions) && ConnectionsIn(Workshop, regions) && ConnectionsIn(Station, regions)
  {
  }

  /** The station region of Central Yard is a train station that starts locked. */
  lemma StationStartsLocked()
    ensures CentralYard.stationRegionKey == "station"
    ensures CentralYard.stationRegionKey in CentralYard.regions
    ensures CentralYard.regions[CentralYard.stationRegionKey].isTrainStation
    ensures !CentralYard.regions[CentralYard.stationRegionKey].stationUnlocked
  {
    CentralYardRegions();
  }

  /** Bolt is alone in the square, Ada alone in the workshop, nobody at the station. */
  lemma Occupants()
    ensures CentralYard.regions.Keys == {"square", "workshop", "station"}
    ensures CentralYard.regions["square"].robots == [Bolt]
    ensures CentralYard.regions["workshop"].robots == [Ada]
    ensures CentralYard.regions["station"].robots == []
  {
    CentralYardRegions();
  }

  /** Alpha City has one neighborhood, Central Yard. */
  lemma OneNeighborhood()
    ensures CreateWorld().cities.Keys == {"alpha_city"}
    ensures CreateWorld().cities["alpha_city"].neighborhoodOrder == ["central_yard"]
  {
  }

  /** Ada's dialog starts at a node, stores nodes under their ids and never dangles. */
  lemma AdaWellFormed()
    ensures RobotWellFormed(Ada)
  {
    AdaAcyclic();
    RankedIsClosed(AdaDialog, AdaRank);
  }

  /** Bolt's dialog starts at a node, stores nodes under their ids and never dangles. */
  lemma BoltWellFormed()
    ensures RobotWellFormed(Bolt)
  {
    BoltAcyclic();
    RankedIsClosed(BoltDialog, BoltRank);
  }

  const AdaRank: map<string, nat> := map["start" := 2, "stickers" := 1, "station_info" := 0]

  const BoltRank: map<string, nat> := map["start" := 1, "about_ada" := 0]

  lemma AdaAcyclic()
    ensures RankedBy(AdaDialog, AdaRank) && Acyclic(AdaDialog)
  {
    assert Descends(AdaDialog["start"], AdaDialog, AdaRank, 2);
  }

  lemma BoltAcyclic()
    ensures RankedBy(BoltDialog, BoltRank) && Acyclic(BoltDialog)
  {
    assert RankedBy(BoltDialog, BoltRank);
  }
}
