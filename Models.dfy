/**
  The world data model of `roboworld/models.py`: dialog graphs, robots,
  regions, neighborhoods, cities and the world. Region, neighborhood and
  city names, descriptions and dialog text are dropped; a robot keeps its
  name; keys, ids, effects and flags are kept. Python default factories become constructor defaults.
 */
module Models {
  import opened Wrappers

  /** One player response. `nextId == None` ends the conversation. */
  datatype DialogChoice = DialogChoice(nextId: Option<string>, effects: seq<string> := [])

  /** A node of a robot's dialog graph. */
  datatype DialogNode = DialogNode(id: string, choices: seq<DialogChoice> := [])

  /** A dialog graph: node id to node. */
  type Dialog = map<string, DialogNode>

  /** A robot; its name is kept because it identifies the robot. */
  datatype Robot = Robot(name: string, dialog: Dialog, startNode: string)

  /**
    A traversable area. `connections` maps a direction or name label to a
    region key of the same neighborhood. `stationUnlocked` is the flag the
    region is created with; the game keeps the flags it sets later.
   */
  datatype Region = Region(
    key: string,
    connections: map<string, string>,
    robots: seq<Robot> := [],
    isTrainStation: bool := false,
    stationUnlocked: bool := false)

  /** A set of regions, one of which is its train station. */
  datatype Neighborhood = Neighborhood(regions: map<string, Region>, stationRegionKey: string)

  /**
    A city. Python dicts keep insertion order and the ride menu lists
    neighborhoods in that order, so the order of the keys is kept beside the map.
   */
  datatype City = City(neighborhoods: map<string, Neighborhood>, neighborhoodOrder: seq<string>)

  datatype World = World(cities: map<string, City>)

  /** A region's full position in the world; identifies its station flag. */
  datatype Address = Address(city: string, neighborhood: string, region: string)

  // ---------------- Dialog graphs ----------------

  /** Every `nextId` of `node` is a node of `dialog`. */
  ghost predicate TargetsIn(node: DialogNode, dialog: Dialog) {
    forall c :: c in node.choices && c.nextId.Some? ==> c.nextId.value in dialog
  }

  /** No choice of the graph leads to a missing node. */
  ghost predicate Closed(dialog: Dialog) {
    forall id :: id in dialog ==> TargetsIn(dialog[id], dialog)
  }

  /** Each node is stored under its own id. */
  ghost predicate KeyedById(dialog: Dialog) {
    forall id :: id in dialog ==> dialog[id].id == id
  }

  /** Every choice of `node` leads to a node of strictly smaller rank. */
  ghost predicate Descends(node: DialogNode, dialog: Dialog, rank: map<string, nat>, r: nat) {
    forall c :: c in node.choices && c.nextId.Some? ==>
      c.nextId.value in dialog && c.nextId.value in rank && rank[c.nextId.value] < r
  }

  /**
    `rank` strictly decreases along every choice of the graph. Such a rank
    exists exactly when the finite graph has no cycle.
   */
  ghost predicate RankedBy(dialog: Dialog, rank: map<string, nat>) {
    forall id :: id in dialog ==> id in rank && Descends(dialog[id], dialog, rank, rank[id])
  }

  /** The dialog graph is a DAG (documented in `roboworld/models.py`, never enforced). */
  ghost predicate Acyclic(dialog: Dialog) {
    exists rank :: RankedBy(dialog, rank)
  }

  /** Content integrity of a robot: its dialog starts at a node and never dangles. */
  ghost predicate RobotWellFormed(robot: Robot) {
    && robot.startNode in robot.dialog
    && KeyedById(robot.dialog)
    && Closed(robot.dialog)
  }

  lemma RankedIsClosed(dialog: Dialog, rank: map<string, nat>)
    requires RankedBy(dialog, rank)
    ensures Closed(dialog)
  {
    forall id | id in dialog ensures TargetsIn(dialog[id], dialog) {
      assert Descends(dialog[id], dialog, rank, rank[id]);
    }
  }

  // ---------------- Regions, neighborhoods, cities ----------------

  /** Every connection of `region` leads to a key of `regions`. */
  ghost predicate ConnectionsIn(region: Region, regions: map<string, Region>) {
    forall dir :: dir in region.connections ==> region.connections[dir] in regions
  }

  ghost predicate NeighborhoodWellFormed(nb: Neighborhood) {
    && nb.stationRegionKey in nb.regions
    && forall k :: k in nb.regions ==> nb.regions[k].key == k && ConnectionsIn(nb.regions[k], nb.regions)
  }

  /** The key order lists each neighborhood key exactly once. */
  ghost predicate CityWellFormed(city: City) {
    && (forall i, j :: 0 <= i < j < |city.neighborhoodOrder| ==> city.neighborhoodOrder[i] != city.neighborhoodOrder[j])
    && (forall k :: k in city.neighborhoods <==> k in city.neighborhoodOrder)
    && (forall k :: k in city.neighborhoods ==> NeighborhoodWellFormed(city.neighborhoods[k]))
  }

  ghost predicate WorldWellFormed(world: World) {
    forall c :: c in world.cities ==> CityWellFormed(world.cities[c])
  }

  /** The address names an existing city, neighborhood and region. */
  ghost predicate Resolves(world: World, a: Address) {
    && a.city in world.cities
    && a.neighborhood in world.cities[a.city].neighborhoods
    && a.region in world.cities[a.city].neighborhoods[a.neighborhood].regions
  }

  /** Defaults of the dataclasses: no effects, no choices, no robots, not a station, locked. */
  lemma Defaults(next: Option<string>, id: string, key: string, connections: map<string, string>)
    ensures DialogChoice(next).effects == []
    ensures DialogNode(id).choices == []
    ensures var r := Region(key, connections); r.robots == [] && !r.isTrainStation && !r.stationUnlocked
  {
  }
}
