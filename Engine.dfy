/**
  The `Game` class of `roboworld/game.py`: the player's position and codes,
  the station flags set during play, and the handlers that change them.
  Console output is replaced by outcome values and every prompt by a
  parameter holding the player's answer(s).
 */
module Engine {
  import opened Wrappers
  import opened Text
  import opened Models
  import opened Rules
  import WorldData

  /** The start of every game: Alpha City, Central Yard, the Square, no codes. */
  function InitialPlayer(): (p: PlayerState)
    ensures p.knownCodes == {}
    ensures Resolves(WorldData.CreateWorld(), AddressOf(p))
  {
    WorldData.CentralYardRegions();
    PlayerState("alpha_city", "central_yard", "square", {})
  }

  /** The answers one exploration turn may read after its menu choice. */
  datatype TurnInputs = TurnInputs(
    moveLabel: string,
    robotEntry: NumberEntry,
    dialogEntries: seq<DialogEntry>,
    rideEntry: NumberEntry)

  class Game {
    const world: World
    var player: PlayerState
    /**
      The stations whose `station_unlocked` flag was set to true during play.
      `try_unlock_station` sets the flag in place on the shared Region object; here the
      world stays a constant value and the flags set since are kept beside it.
     */
    var unlocked: set<Address>

    /**
      The world is well formed, the player's position resolves in it, and
      only train stations of the world have been unlocked.
     */
    ghost predicate Valid()
      reads this
    {
      && WorldWellFormed(world)
      && Resolves(world, AddressOf(player))
      && forall a :: a in unlocked ==>
           Resolves(world, a) && world.cities[a.city].neighborhoods[a.neighborhood].regions[a.region].isTrainStation
    }

    constructor ()
      ensures Valid()
      ensures world == WorldData.CreateWorld()
      ensures player == InitialPlayer() && unlocked == {}
    {
      world := WorldData.CreateWorld();
      player := InitialPlayer();
      unlocked := {};
      WorldData.CentralYardRegions();
    }

    function CurrentCity(): (c: City)
      reads this
      requires Valid()
      ensures CityWellFormed(c) && player.neighborhoodKey in c.neighborhoods
    {
      world.cities[player.cityKey]
    }

    function CurrentNeighborhood(): (nb: Neighborhood)
      reads this
      requires Valid()
      ensures NeighborhoodWellFormed(nb) && player.regionKey in nb.regions
    {
      CurrentCity().neighborhoods[player.neighborhoodKey]
    }

    function CurrentRegion(): (r: Region)
      reads this
      requires Valid()
      ensures r.key == player.regionKey && ConnectionsIn(r, CurrentNeighborhood().regions)
    {
      CurrentNeighborhood().regions[player.regionKey]
    }

    /** The current region's `station_unlocked` flag. */
    function StationFlag(): (flag: bool)
      reads this
      requires Valid()
      ensures flag ==> CurrentRegion().stationUnlocked || CurrentRegion().isTrainStation
    {
      CurrentRegion().stationUnlocked || AddressOf(player) in unlocked
    }

    /** `exploration_input`: one menu answer and the handler it runs; false means quit. */
    method ExplorationInput(raw: string, turn: TurnInputs) returns (keepGoing: bool)
      requires Valid()
      modifies this`player
      ensures Valid()
      ensures var cmd := Dispatch(old(CurrentRegion()), old(StationFlag()), raw);
        && keepGoing == (cmd != Quit)
        && player == (match cmd
          case MoveCmd => AfterMove(old(player), Move(old(CurrentRegion()), turn.moveLabel))
          case TalkCmd => AfterTalk(old(player), Talk(old(CurrentRegion()).robots, turn.robotEntry, turn.dialogEntries, old(player.knownCodes)))
          case RideCmd => AfterRide(old(player), Ride(old(CurrentCity()), old(player.neighborhoodKey), old(CurrentRegion()), old(StationFlag()), turn.rideEntry))
          case _ => old(player))
      ensures unlocked == old(unlocked)
    {
      var region := CurrentRegion();
      var choice := Normalize(raw);
      if choice == "q" {
        return false;
      } else if choice == "m" {
        var _ := HandleMove(turn.moveLabel);
      } else if choice == "t" {
        var _ := HandleTalk(turn.robotEntry, turn.dialogEntries);
      } else if choice == "r" && region.isTrainStation && StationFlag() {
        var _ := HandleRideTrain(turn.rideEntry);
      }
      keepGoing := true;
    }

    /** `handle_move`: follow the connection the typed label names, if any. */
    method HandleMove(typed: string) returns (outcome: MoveOutcome)
      requires Valid()
      modifies this`player
      ensures Valid()
      ensures outcome == Move(old(CurrentRegion()), typed)
      ensures player == AfterMove(old(player), outcome)
      ensures unlocked == old(unlocked)
    {
      var region := CurrentRegion();
      if |region.connections| == 0 {
        return NoExits;
      }
      var dest := Normalize(typed);
      if dest in region.connections {
        MoveStaysInNeighborhood(CurrentNeighborhood(), player.regionKey, typed);
        player := player.(regionKey := region.connections[dest]);
        outcome := Moved(region.connections[dest]);
      } else {
        outcome := CantGo;
      }
    }

    /** `handle_talk`: choose a robot by number and converse with it. */
    method HandleTalk(entry: NumberEntry, answers: seq<DialogEntry>) returns (outcome: TalkOutcome)
      requires Valid()
      modifies this`player
      ensures Valid()
      ensures outcome == Talk(old(CurrentRegion()).robots, entry, answers, old(player.knownCodes))
      ensures player == AfterTalk(old(player), outcome)
      ensures unlocked == old(unlocked)
    {
      var region := CurrentRegion();
      if region.robots == [] {
        return NoOneToTalkTo;
      }
      match SelectNumbered(region.robots, entry)
      case Cancelled =>
        outcome := TalkCancelled;
      case Invalid =>
        outcome := InvalidRobot;
      case Selected(robot) =>
        var conversation := ConversationLoop(robot, answers);
        outcome := Talked(robot, conversation);
    }

    /**
      `conversation_loop`: from the robot's start node, read a choice, apply
      its `gain:` effects in order, then end or go on at its next node.
     */
    method ConversationLoop(robot: Robot, answers: seq<DialogEntry>) returns (result: Conversation)
      modifies this`player
      ensures result == Converse(robot.dialog, robot.startNode, answers, 0, old(player.knownCodes))
      ensures player == old(player).(knownCodes := result.codes)
    {
      var currentId := robot.startNode;
      var pos := 0;
      var steps := 0;
      while true
        invariant pos <= |answers|
        invariant player == old(player).(knownCodes := player.knownCodes)
        invariant var rest := Converse(robot.dialog, currentId, answers, pos, player.knownCodes);
          rest.(steps := rest.steps + steps) == Converse(robot.dialog, robot.startNode, answers, 0, old(player.knownCodes))
        decreases |answers| - pos
      {
        if currentId !in robot.dialog {
          return Conversation(MissingNode(currentId), player.knownCodes, steps, pos);
        }
        var node := robot.dialog[currentId];
        var pick, next := GetDialogChoice(node, answers, pos);
        if pick.ExitRequested? {
          return Conversation(Exited, player.knownCodes, steps, next);
        } else if pick.NoMoreInput? {
          return Conversation(InputExhausted, player.knownCodes, steps, next);
        }
        var choice := node.choices[pick.index];
        ghost var codes := player.knownCodes;
        ApplyChoiceEffects(choice.effects);
        assert Converse(robot.dialog, currentId, answers, pos, codes) ==
          if choice.nextId.None? then Conversation(BranchEnded, player.knownCodes, 1, next)
          else var rest := Converse(robot.dialog, choice.nextId.value, answers, next, player.knownCodes);
            rest.(steps := rest.steps + 1);
        steps := steps + 1;
        if choice.nextId.None? {
          return Conversation(BranchEnded, player.knownCodes, steps, next);
        }
        currentId := choice.nextId.value;
        pos := next;
      }
    }

    /** The effect loop of `conversation_loop`: learn the code of every `gain:` effect, in order. */
    method ApplyChoiceEffects(effects: seq<string>)
      modifies this`player
      ensures player == old(player).(knownCodes := ApplyEffects(old(player.knownCodes), effects))
    {
      var j := 0;
      while j < |effects|
        invariant 0 <= j <= |effects|
        invariant player == old(player).(knownCodes := ApplyEffects(old(player.knownCodes), effects[..j]))
      {
        var effect := effects[j];
        if StartsWith(effect, "gain:") {
          assert effect[4] == ':';
          var code := AfterFirst(effect, ':').value;
          player := player.(knownCodes := player.knownCodes + {code});
        }
        assert effects[..j + 1][..j] == effects[..j];
        j := j + 1;
      }
      assert effects[..j] == effects;
    }

    /**
      `get_dialog_choice`: read answers from position `pos` until one is `x`
      or a listed choice number, rejecting the others.
     */
    method GetDialogChoice(node: DialogNode, answers: seq<DialogEntry>, pos: nat) returns (pick: Pick, next: nat)
      requires pos <= |answers|
      ensures (pick, next) == ScanChoice(node, answers, pos)
    {
      var i := pos;
      while i < |answers|
        invariant pos <= i <= |answers|
        invariant ScanChoice(node, answers, i) == ScanChoice(node, answers, pos)
      {
        var answer := answers[i];
        if answer == ExitKey {
          return ExitRequested, i + 1;
        }
        if answer.number.Some? {
          var idx := answer.number.value - 1;
          if 0 <= idx < |node.choices| {
            return Picked(idx), i + 1;
          }
        }
        i := i + 1;
      }
      return NoMoreInput, i;
    }

    /** The list comprehension of `handle_ride_train`: the neighborhood keys other than `current`, in order. */
    method ListDestinations(order: seq<string>, current: string) returns (destinations: seq<string>)
      ensures destinations == Destinations(order, current)
    {
      destinations := [];
      var i := 0;
      while i < |order|
        invariant 0 <= i <= |order|
        invariant destinations == Destinations(order[..i], current)
      {
        assert order[..i + 1][..i] == order[..i];
        if order[i] != current {
          destinations := destinations + [order[i]];
        }
        i := i + 1;
      }
      assert order[..i] == order;
    }

    /** `try_unlock_station`: the one-way lock-to-unlock transition of the current station. */
    method TryUnlockStation(raw: string) returns (outcome: UnlockOutcome)
      requires Valid()
      modifies this`unlocked
      ensures Valid()
      ensures outcome == Unlock(old(CurrentRegion()), old(StationFlag()), player.knownCodes, raw)
      ensures unlocked == if outcome == Unlocked then old(unlocked) + {AddressOf(player)} else old(unlocked)
      ensures StationFlag() <==> old(StationFlag()) || outcome == Unlocked
      ensures player == old(player)
    {
      var region := CurrentRegion();
      if !region.isTrainStation {
        return NotAStation;
      }
      if StationFlag() {
        return AlreadyOperational;
      }
      var code := Strip(raw);
      if code == [] {
        return UnlockCancelled;
      }
      if code in player.knownCodes {
        unlocked := unlocked + {AddressOf(player)};
        outcome := Unlocked;
      } else {
        outcome := IncorrectCode;
      }
    }

    /**
      `handle_ride_train`: list the city's other neighborhoods in order and
      travel to the station region of the one chosen.
     */
    method HandleRideTrain(entry: NumberEntry) returns (outcome: RideOutcome)
      requires Valid()
      modifies this`player
      ensures Valid()
      ensures outcome == Ride(old(CurrentCity()), old(player.neighborhoodKey), old(CurrentRegion()), old(StationFlag()), entry)
      ensures player == AfterRide(old(player), outcome)
      ensures unlocked == old(unlocked)
    {
      var region := CurrentRegion();
      if !(region.isTrainStation && StationFlag()) {
        return NotOperational;
      }
      var city := CurrentCity();
      var destinations := ListDestinations(city.neighborhoodOrder, player.neighborhoodKey);
      if destinations == [] {
        return NoOtherStations;
      }
      match SelectNumbered(destinations, entry)
      case Cancelled =>
        outcome := RideCancelled;
      case Invalid =>
        outcome := InvalidDestination;
      case Selected(key) =>
        var nb := city.neighborhoods[key];
        assert NeighborhoodWellFormed(nb);
        player := player.(neighborhoodKey := key, regionKey := nb.stationRegionKey);
        outcome := Arrived(key, nb.stationRegionKey);
    }
  }
}
