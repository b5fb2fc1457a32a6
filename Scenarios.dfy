/**
  What the rules of the game mean in the world `create_world()` builds:
  where the player starts, where moves lead, what Ada and Bolt can teach,
  how long their conversations last, the station puzzle and the ride line.
 */
module Scenarios {
  import opened Wrappers
  import opened Text
  import opened Models
  import opened Rules
  import opened WorldData
  import Engine

  /** The start position of `Game.__init__` names a city, neighborhood and region of the created world. */
  lemma InitialPositionResolves()
    ensures Resolves(CreateWorld(), AddressOf(Engine.InitialPlayer()))
    ensures var p := Engine.InitialPlayer();
      CreateWorld().cities[p.cityKey].neighborhoods[p.neighborhoodKey].regions[p.regionKey] == Square
  {
    CentralYardRegions();
  }

  /** From the Square, `east` leads to the Workshop and `south` to the Station. */
  lemma SquareConnections()
    ensures Move(Square, "east") == Moved("workshop")
    ensures Move(Square, "south") == Moved("station")
  {
    MoveByExactLabel(Square, "east");
    MoveByExactLabel(Square, "south");
  }

  /** From the Workshop, `west` leads back to the Square. */
  lemma WorkshopConnections()
    ensures Move(Workshop, "west") == Moved("square")
  {
    MoveByExactLabel(Workshop, "west");
  }

  /** `north` is not a connection of the Square: the move fails and the player stays. */
  lemma NorthFromSquareFails()
    ensures Move(Square, "north") == CantGo
  {
    NormalizeFixed("north");
  }

  /** The typed label is stripped and lower-cased before the lookup. */
  lemma MoveIgnoresPaddingAndCase()
    ensures Move(Square, "  EaSt ") == Moved("workshop")
  {
    PaddedEastNormalizes();
  }

  lemma PaddedEastNormalizes()
    ensures Normalize("  EaSt ") == "east"
  {
    StripPaddedEast();
    LowerEast();
  }

  lemma StripPaddedEast()
    ensures Strip("  EaSt ") == "EaSt"
  {
    TrimStartPaddedEast();
    TrimEndEast();
  }

  lemma TrimStartPaddedEast()
    ensures TrimStart("  EaSt ") == "EaSt "
  {
    assert "  EaSt "[1..] == " EaSt ";
    TrimStartSpacedEast();
  }

  lemma TrimStartSpacedEast()
    ensures TrimStart(" EaSt ") == "EaSt "
  {
    assert " EaSt "[1..] == "EaSt ";
  }

  lemma TrimEndEast()
    ensures TrimEnd("EaSt ") == "EaSt"
  {
    assert "EaSt "[..4] == "EaSt";
  }

  lemma LowerEast()
    ensures Lower("EaSt") == "east"
  {
    var l := Lower("EaSt");
    assert l[0] == 'e' && l[1] == 'a' && l[2] == 's' && l[3] == 't';
  }

  /** Answering 1 at `station_info` takes its only choice, learns ORANGE-7 and ends the branch. */
  lemma StationInfoTeaches(answers: seq<DialogEntry>, pos: nat)
    requires pos < |answers| && answers[pos] == Typed(Some(1))
    ensures Converse(AdaDialog, "station_info", answers, pos, {}) == Conversation(BranchEnded, {"ORANGE-7"}, 1, pos + 1)
  {
    assert ScanChoice(AdaDialog["station_info"], answers, pos) == (Picked(0), pos + 1);
    Orange7Applied();
  }

  /** Answering 1 in the Workshop talks to Ada; 1 then 1 reaches `station_info` and learns ORANGE-7. */
  lemma AdaTeachesTheCode()
    ensures Talk(Workshop.robots, Entered(Some(1)), [Typed(Some(1)), Typed(Some(1))], {}) ==
      Talked(Ada, Conversation(BranchEnded, {"ORANGE-7"}, 2, 2))
  {
    AdaConversation();
    assert SelectNumbered(Workshop.robots, Entered(Some(1))) == Selected(Ada);
  }

  /** Ada's conversation on the answers 1, 1: `start`, then `station_info`, which ends the branch. */
  lemma AdaConversation()
    ensures Converse(AdaDialog, "start", [Typed(Some(1)), Typed(Some(1))], 0, {}) ==
      Conversation(BranchEnded, {"ORANGE-7"}, 2, 2)
  {
    var answers := [Typed(Some(1)), Typed(Some(1))];
    StationInfoTeaches(answers, 1);
    assert ScanChoice(AdaDialog["start"], answers, 0) == (Picked(0), 1);
    assert ApplyEffects({}, []) == {};
  }

  /** The one effect of the created world, on `station_info`'s only choice, teaches ORANGE-7. */
  lemma Orange7Effect()
    ensures CodesIn(["gain:ORANGE-7"]) == {"ORANGE-7"}
  {
    Orange7Gained();
    CodesInSingle("gain:ORANGE-7");
  }

  lemma Orange7Gained()
    ensures GainedCode("gain:ORANGE-7") == Some("ORANGE-7")
  {
    GainedCodeIsSuffix("gain:ORANGE-7");
    assert "gain:ORANGE-7"[5..] == "ORANGE-7";
  }

  /** Learning from `station_info`'s choice, with no code known before, gives exactly ORANGE-7. */
  lemma Orange7Applied()
    ensures ApplyEffects({}, ["gain:ORANGE-7"]) == {"ORANGE-7"}
  {
    Orange7Effect();
    ApplyEffectsAddsCodes({}, ["gain:ORANGE-7"]);
  }

  /** Ada's dialog teaches ORANGE-7 and nothing else. */
  lemma AdaTeachesOnlyOrange7(code: string)
    ensures Teaches(AdaDialog, code) <==> code == "ORANGE-7"
  {
    if code == "ORANGE-7" {
      AdaTeachesOrange7();
    } else {
      AdaTeachesNothingElse(code);
    }
  }

  lemma AdaTeachesOrange7()
    ensures Teaches(AdaDialog, "ORANGE-7")
  {
    Orange7Effect();
    var gain := DialogChoice(None, ["gain:ORANGE-7"]);
    assert "station_info" in AdaDialog && gain in AdaDialog["station_info"].choices;
  }

  lemma AdaTeachesNothingElse(code: string)
    requires code != "ORANGE-7"
    ensures !Teaches(AdaDialog, code)
  {
    assert AdaDialog.Keys == {"start", "stickers", "station_info"};
    assert forall c :: c in AdaDialog["start"].choices ==> code !in CodesIn(c.effects) by {
      assert CodesIn([]) == {};
    }
    assert forall c :: c in AdaDialog["stickers"].choices ==> code !in CodesIn(c.effects) by {
      assert CodesIn([]) == {};
    }
    assert forall c :: c in AdaDialog["station_info"].choices ==> code !in CodesIn(c.effects) by {
      Orange7Effect();
    }
  }

  /** Bolt's dialog teaches nothing. */
  lemma BoltTeachesNothing(code: string)
    ensures !Teaches(BoltDialog, code)
  {
    assert CodesIn([]) == {};
  }

  /** Whatever the player answers, talking in the created world can teach nothing but ORANGE-7. */
  lemma TalkTeachesOnlyOrange7(key: string, entry: NumberEntry, answers: seq<DialogEntry>, codes: set<string>)
    requires key in CentralYard.regions
    ensures var t := Talk(CentralYard.regions[key].robots, entry, answers, codes);
      t.Talked? ==> t.conversation.codes <= codes + {"ORANGE-7"}
  {
    Occupants();
    var t := Talk(CentralYard.regions[key].robots, entry, answers, codes);
    if t.Talked? {
      forall code | code in t.conversation.codes ensures code in codes + {"ORANGE-7"} {
        RobotTeachesOnlyOrange7(t.robot, answers, codes, code);
      }
    }
  }

  /** A conversation with Ada or Bolt learns at most ORANGE-7 beyond the codes already known. */
  lemma RobotTeachesOnlyOrange7(robot: Robot, answers: seq<DialogEntry>, codes: set<string>, code: string)
    requires robot == Ada || robot == Bolt
    requires code in Converse(robot.dialog, robot.startNode, answers, 0, codes).codes
    ensures code in codes + {"ORANGE-7"}
  {
    ConverseLearnsOnlyTaught(robot.dialog, robot.startNode, answers, 0, codes, code);
    if robot == Ada {
      AdaTeachesOnlyOrange7(code);
    } else {
      BoltTeachesNothing(code);
    }
  }

  /** Every conversation with Ada or Bolt ends within three choices and never reaches a missing node. */
  lemma ConversationsAreShort(robot: Robot, answers: seq<DialogEntry>, codes: set<string>)
    requires robot == Ada || robot == Bolt
    ensures var c := Converse(robot.dialog, robot.startNode, answers, 0, codes);
      c.steps <= 3 && !c.outcome.MissingNode?
  {
    if robot == Ada {
      AdaAcyclic();
      ConverseRankBound(AdaDialog, AdaRank, "start", answers, 0, codes);
      AdaWellFormed();
      ConverseClosedNeverMissing(AdaDialog, "start", answers, 0, codes);
    } else {
      BoltAcyclic();
      ConverseRankBound(BoltDialog, BoltRank, "start", answers, 0, codes);
      BoltWellFormed();
      ConverseClosedNeverMissing(BoltDialog, "start", answers, 0, codes);
    }
  }

  /** The learned code unlocks the locked station, even with surrounding whitespace. */
  lemma RightCodeUnlocks(codes: set<string>)
    requires "ORANGE-7" in codes
    ensures Unlock(Station, false, codes, "ORANGE-7") == Unlocked
    ensures Unlock(Station, false, codes, " ORANGE-7\t") == Unlocked
  {
    var c := "ORANGE-7";
    assert TrimStart(c) == c && TrimEnd(c) == c;
    var p := " ORANGE-7\t";
    assert TrimStart(p) == TrimStart(p[1..]) == p[1..];
    assert p[1..] == "ORANGE-7\t";
    assert TrimEnd("ORANGE-7\t") == TrimEnd("ORANGE-7") == "ORANGE-7";
  }

  /** An unknown code leaves the station locked. */
  lemma WrongCodeFails(codes: set<string>)
    requires "WRONG-CODE" !in codes
    ensures Unlock(Station, false, codes, "WRONG-CODE") == IncorrectCode
  {
    var w := "WRONG-CODE";
    assert TrimStart(w) == w && TrimEnd(w) == w;
  }

  /** Once the station runs, another attempt reports it operational; elsewhere there is no panel. */
  lemma UnlockNoOps(codes: set<string>, raw: string)
    ensures Unlock(Station, true, codes, raw) == AlreadyOperational
    ensures Unlock(Station, false, codes, "") == UnlockCancelled
    ensures Unlock(Square, false, codes, raw) == NotAStation
  {
  }

  /** Alpha City has only Central Yard, so the operational station offers no destination. */
  lemma RideHasNoDestination(entry: NumberEntry)
    ensures CityWellFormed(AlphaCity)
    ensures Ride(AlphaCity, "central_yard", Station, true, entry) == NoOtherStations
    ensures Ride(AlphaCity, "central_yard", Station, false, entry) == NotOperational
  {
    assert CreateWorld().cities["alpha_city"] == AlphaCity;
  }

  /** The created world's Central Yard, as the game looks it up. */
  lemma CreatedCentralYard()
    ensures CreateWorld().cities["alpha_city"].neighborhoods["central_yard"] == CentralYard
    ensures CentralYard.regions == map["square" := Square, "workshop" := Workshop, "station" := Station]
  {
    CentralYardRegions();
  }

  /** The regions of the created world's Central Yard, looked up by key. */
  lemma CreatedRegions()
    ensures CreateWorld().cities["alpha_city"].neighborhoods["central_yard"].regions["square"] == Square
    ensures CreateWorld().cities["alpha_city"].neighborhoods["central_yard"].regions["workshop"] == Workshop
    ensures CreateWorld().cities["alpha_city"].neighborhoods["central_yard"].regions["station"] == Station
  {
    CreatedCentralYard();
  }

  /** First part of the puzzle on a `Game`: walk east to the Workshop and learn the code from Ada. */
  method LearnCode(g: Engine.Game)
    requires g.Valid() && g.world == CreateWorld() && g.player == Engine.InitialPlayer() && g.unlocked == {}
    modifies g
    ensures g.Valid() && g.unlocked == {}
    ensures g.player == Rules.PlayerState("alpha_city", "central_yard", "workshop", {"ORANGE-7"})
  {
    CreatedRegions();
    SquareConnections();
    assert g.CurrentRegion() == Square;
    var moved := g.HandleMove("east");
    AdaTeachesTheCode();
    var talked := g.HandleTalk(Entered(Some(1)), [Typed(Some(1)), Typed(Some(1))]);
  }

  /** Second part: walk back west to the Square. */
  method ReturnToSquare(g: Engine.Game)
    requires g.Valid() && g.world == CreateWorld()
    requires g.player == Rules.PlayerState("alpha_city", "central_yard", "workshop", {"ORANGE-7"})
    modifies g
    ensures g.Valid() && g.unlocked == old(g.unlocked)
    ensures g.player == Rules.PlayerState("alpha_city", "central_yard", "square", {"ORANGE-7"})
  {
    CreatedRegions();
    WorkshopConnections();
    assert g.CurrentRegion() == Workshop;
    var moved := g.HandleMove("west");
  }

  /** Third part: walk south from the Square to the Station. */
  method GoToStation(g: Engine.Game)
    requires g.Valid() && g.world == CreateWorld()
    requires g.player == Rules.PlayerState("alpha_city", "central_yard", "square", {"ORANGE-7"})
    modifies g
    ensures g.Valid() && g.unlocked == old(g.unlocked)
    ensures g.player == Rules.PlayerState("alpha_city", "central_yard", "station", {"ORANGE-7"})
  {
    CreatedRegions();
    SquareConnections();
    assert g.CurrentRegion() == Square;
    var moved := g.HandleMove("south");
  }

  /** Fourth part: at the locked Station, the learned code brings the line back. */
  method UnlockTheStation(g: Engine.Game)
    requires g.Valid() && g.world == CreateWorld() && g.unlocked == {}
    requires g.player == Rules.PlayerState("alpha_city", "central_yard", "station", {"ORANGE-7"})
    modifies g
    ensures g.Valid() && g.StationFlag() && g.player == old(g.player)
  {
    CreatedCentralYard();
    RightCodeUnlocks(g.player.knownCodes);
    var unlock := g.TryUnlockStation("ORANGE-7");
  }

  /** The whole puzzle played on a new `Game`: learn the code, unlock the station, find no train to take. */
  method Walkthrough() returns (ride: RideOutcome)
    ensures ride == NoOtherStations
  {
    var g := new Engine.Game();
    LearnCode(g);
    ReturnToSquare(g);
    GoToStation(g);
    UnlockTheStation(g);
    CreatedCentralYard();
    RideHasNoDestination(Blank);
    ride := g.HandleRideTrain(Blank);
  }
}
