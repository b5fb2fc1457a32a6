/**
  The decisions `roboworld/game.py` makes, as functions of the inputs and
  the current state: moving, Python-style list selection, reading a dialog
  choice, applying effects, a whole conversation, the station unlock, the
  train ride and the exploration menu. The class in Engine.dfy performs them
  step by step and is proved to agree with these functions.
 */
module Rules {
  import opened Wrappers
  import opened Text
  import opened Models

  /** Position and learned codes of the player. */
  datatype PlayerState = PlayerState(
    cityKey: string,
    neighborhoodKey: string,
    regionKey: string,
    knownCodes: set<string>)

  function AddressOf(p: PlayerState): Address {
    Address(p.cityKey, p.neighborhoodKey, p.regionKey)
  }

  // ---------------- Move ----------------

  datatype MoveOutcome = NoExits | Moved(destination: string) | CantGo

  /**
    `handle_move`: a region without connections refuses at once; otherwise
    the stripped, lower-cased label is looked up in the connections.
   */
  function Move(region: Region, typed: string): (r: MoveOutcome)
    ensures r == NoExits <==> |region.connections| == 0
    ensures r.Moved? ==> r.destination in region.connections.Values
  {
    if |region.connections| == 0 then NoExits
    else if Normalize(typed) in region.connections then Moved(region.connections[Normalize(typed)])
    else CantGo
  }

  /** A move succeeds exactly for a label whose normal form is a connection, and goes where it says. */
  lemma MoveSucceedsIff(region: Region, typed: string)
    ensures Move(region, typed).Moved? <==> Normalize(typed) in region.connections
    ensures Move(region, typed).Moved? ==> Move(region, typed).destination == region.connections[Normalize(typed)]
    ensures region.connections == map[] ==> Move(region, typed) == NoExits
  {
    if Normalize(typed) in region.connections {
      assert |region.connections| > 0;
    }
  }

  /** A move from a region of a well-formed neighborhood stays inside that neighborhood. */
  lemma MoveStaysInNeighborhood(nb: Neighborhood, key: string, typed: string)
    requires NeighborhoodWellFormed(nb) && key in nb.regions
    ensures Move(nb.regions[key], typed).Moved? ==> Move(nb.regions[key], typed).destination in nb.regions
  {
    var region := nb.regions[key];
    if Move(region, typed).Moved? {
      assert ConnectionsIn(region, nb.regions);
    }
  }

  /** An already trimmed, lower-case connection label is followed as typed. */
  lemma MoveByExactLabel(region: Region, typed: string)
    requires typed in region.connections
    requires typed == [] || (!IsSpace(typed[0]) && !IsSpace(typed[|typed| - 1]))
    requires forall i :: 0 <= i < |typed| ==> !IsUpper(typed[i])
    ensures Move(region, typed) == Moved(region.connections[typed])
  {
    NormalizeFixed(typed);
  }

  /**
    Only the typed label is lower-cased, not the connection keys, so a
    connection whose label holds an upper-case letter can never be taken.
   */
  lemma UpperCaseLabelUnreachable(region: Region, typed: string, dir: string, i: int)
    requires dir in region.connections && 0 <= i < |dir| && IsUpper(dir[i])
    ensures Normalize(typed) != dir
  {
  }

  // ---------------- Numbered selection (robots, ride destinations) ----------------

  /**
    A numbered prompt's answer after `strip()`: blank, or the result of
    `int(raw)` (`None` where `int` raises `ValueError`).
   */
  datatype NumberEntry = Blank | Entered(number: Option<int>)

  datatype Selection<T> = Cancelled | Invalid | Selected(item: T)

  /** Python's `s[i]`: negative indices count from the end; `None` is `IndexError`. */
  function PyIndex<T>(s: seq<T>, i: int): (r: Option<T>)
    ensures r.Some? <==> -|s| <= i < |s|
    ensures r.Some? ==> r.value == s[(i + |s|) % |s|]
  {
    if 0 <= i < |s| then Some(s[i])
    else if -|s| <= i < 0 then Some(s[|s| + i])
    else None
  }

  /**
    `handle_talk` / `handle_ride_train`: blank cancels, otherwise
    `s[int(raw) - 1]`, so numbers from `1 - |s|` to `|s|` all select something.
   */
  function SelectNumbered<T>(s: seq<T>, entry: NumberEntry): (r: Selection<T>)
    ensures r.Cancelled? <==> entry.Blank?
    ensures r.Selected? <==> entry.Entered? && entry.number.Some? && 1 - |s| <= entry.number.value <= |s|
    ensures r.Selected? && 1 <= entry.number.value ==> r.item == s[entry.number.value - 1]
    ensures r.Selected? && entry.number.value <= 0 ==> r.item == s[|s| + entry.number.value - 1]
  {
    match entry
    case Blank => Cancelled
    case Entered(None) => Invalid
    case Entered(Some(n)) =>
      match PyIndex(s, n - 1)
      case None => Invalid
      case Some(x) => Selected(x)
  }

  /** The quirk: answering `0` picks the last entry of a non-empty list. */
  lemma ZeroSelectsLast<T>(s: seq<T>)
    requires |s| > 0
    ensures SelectNumbered(s, Entered(Some(0))) == Selected(s[|s| - 1])
  {
  }

  // ---------------- Dialog choice prompt ----------------

  /**
    A dialog prompt's answer after `strip().lower()`: `x`, or the result of
    `int(raw)` (`None` where `int` raises `ValueError`).
   */
  datatype DialogEntry = ExitKey | Typed(number: Option<int>)

  /** The index of the chosen choice, when `entry` names one of `node`'s choices. */
  function ChoiceIndex(node: DialogNode, entry: DialogEntry): (r: Option<nat>)
    ensures r.Some? <==> entry.Typed? && entry.number.Some? && 1 <= entry.number.value <= |node.choices|
    ensures r.Some? ==> r.value == entry.number.value - 1
  {
    if entry.Typed? && entry.number.Some? && 0 <= entry.number.value - 1 < |node.choices|
    then Some(entry.number.value - 1)
    else None
  }

  /** An answer the prompt rejects and asks again for. */
  predicate Rejected(node: DialogNode, entry: DialogEntry) {
    entry.Typed? && ChoiceIndex(node, entry).None?
  }

  datatype Pick = Picked(index: nat) | ExitRequested | NoMoreInput

  /**
    `get_dialog_choice` reading `inputs` from position `pos`: the first
    answer that is `x` or a listed number decides; every rejected answer
    before it is skipped. Returns the pick and the position after it.
   */
  function ScanChoice(node: DialogNode, inputs: seq<DialogEntry>, pos: nat): (r: (Pick, nat))
    requires pos <= |inputs|
    ensures pos <= r.1 <= |inputs|
    ensures r.0.Picked? ==>
      && r.0.index < |node.choices| && pos < r.1
      && inputs[r.1 - 1] == Typed(Some(r.0.index + 1))
    ensures r.0.ExitRequested? ==> pos < r.1 && inputs[r.1 - 1] == ExitKey
    ensures r.0.NoMoreInput? ==> r.1 == |inputs|
    ensures forall k :: pos <= k < (if r.0.NoMoreInput? then r.1 else r.1 - 1) ==> Rejected(node, inputs[k])
    decreases |inputs| - pos
  {
    if pos == |inputs| then (NoMoreInput, pos)
    else match inputs[pos]
      case ExitKey => (ExitRequested, pos + 1)
      case Typed(_) =>
        match ChoiceIndex(node, inputs[pos])
        case Some(i) => (Picked(i), pos + 1)
        case None => ScanChoice(node, inputs, pos + 1)
  }

  // ---------------- Effects ----------------

  /** The code an effect teaches: the text after the first `:` of a `gain:` effect. */
  function GainedCode(effect: string): (r: Option<string>)
    ensures r.Some? ==> StartsWith(effect, "gain:") && |r.value| < |effect|
  {
    if StartsWith(effect, "gain:") then AfterFirst(effect, ':') else None
  }

  /** A `gain:` effect teaches exactly what follows its prefix; any other effect teaches nothing. */
  lemma GainedCodeIsSuffix(effect: string)
    ensures GainedCode(effect).Some? <==> StartsWith(effect, "gain:")
    ensures StartsWith(effect, "gain:") ==> GainedCode(effect) == Some(effect[5..])
  {
    if StartsWith(effect, "gain:") {
      assert effect[..5] == "gain:";
      assert effect[4] == ':';
      var r := AfterFirst(effect, ':');
      assert |effect| - |r.value| - 1 == 4;
    }
  }

  /** The set of codes the effects in `effects` teach. */
  function CodesIn(effects: seq<string>): set<string> {
    set e | e in effects && GainedCode(e).Some? :: GainedCode(e).value
  }

  /** What a single effect teaches: its code if it is a `gain:` effect, nothing otherwise. */
  lemma CodesInSingle(effect: string)
    ensures CodesIn([effect]) == if GainedCode(effect).Some? then {GainedCode(effect).value} else {}
    ensures CodesIn([]) == {}
  {
  }

  /** Applying one effect to the known codes. */
  function ApplyEffect(codes: set<string>, effect: string): (r: set<string>)
    ensures r == codes + CodesIn([effect])
  {
    CodesInSingle(effect);
    match GainedCode(effect)
    case Some(code) => codes + {code}
    case None => codes
  }

  /** Applying the effects of a choice in order. */
  function ApplyEffects(codes: set<string>, effects: seq<string>): (r: set<string>)
    ensures codes <= r
  {
    if effects == [] then codes
    else ApplyEffect(ApplyEffects(codes, effects[..|effects| - 1]), effects[|effects| - 1])
  }

  /** Applying effects adds exactly the codes they teach: nothing is lost, duplicates collapse. */
  lemma {:induction false} ApplyEffectsAddsCodes(codes: set<string>, effects: seq<string>)
    ensures ApplyEffects(codes, effects) == codes + CodesIn(effects)
  {
    if effects != [] {
      var init, last := effects[..|effects| - 1], effects[|effects| - 1];
      ApplyEffectsAddsCodes(codes, init);
      assert effects == init + [last];
      assert CodesIn(effects) == CodesIn(init) + CodesIn([last]);
    }
  }

  /** Applying the same effects twice changes nothing the second time. */
  lemma ApplyEffectsIdempotent(codes: set<string>, effects: seq<string>)
    ensures ApplyEffects(ApplyEffects(codes, effects), effects) == ApplyEffects(codes, effects)
  {
    ApplyEffectsAddsCodes(codes, effects);
    ApplyEffectsAddsCodes(ApplyEffects(codes, effects), effects);
  }

  // ---------------- Conversation ----------------

  datatype ConversationOutcome =
    | Exited                    // the player typed `x`
    | BranchEnded               // the chosen choice has no next node
    | MissingNode(id: string)   // `robot.dialog[current_id]` raises KeyError
    | InputExhausted            // the inputs ran out before the conversation ended

  /** How a conversation ended, the codes known after it, the choices taken and the inputs read. */
  datatype Conversation = Conversation(outcome: ConversationOutcome, codes: set<string>, steps: nat, consumed: nat)

  /**
    `conversation_loop` from node `id`: look the node up, read a choice,
    apply its effects, then end or continue at its `nextId`.
   */
  function Converse(dialog: Dialog, id: string, inputs: seq<DialogEntry>, pos: nat, codes: set<string>): (r: Conversation)
    requires pos <= |inputs|
    ensures pos <= r.consumed <= |inputs|
    decreases |inputs| - pos
  {
    if id !in dialog then Conversation(MissingNode(id), codes, 0, pos)
    else
      var node := dialog[id];
      var (pick, next) := ScanChoice(node, inputs, pos);
      match pick
      case ExitRequested => Conversation(Exited, codes, 0, next)
      case NoMoreInput => Conversation(InputExhausted, codes, 0, next)
      case Picked(i) =>
        var choice := node.choices[i];
        var learned := ApplyEffects(codes, choice.effects);
        match choice.nextId
        case None => Conversation(BranchEnded, learned, 1, next)
        case Some(nextId) =>
          var rest := Converse(dialog, nextId, inputs, next, learned);
          rest.(steps := rest.steps + 1)
  }

  /**
    The first choice read decides the start of the conversation: an `x`
    exits with the codes unchanged, a picked choice teaches its codes, and a
    picked choice without a next node ends the branch right there.
   */
  lemma ConverseFirstPick(dialog: Dialog, id: string, inputs: seq<DialogEntry>, pos: nat, codes: set<string>)
    requires pos <= |inputs| && id in dialog
    ensures var (pick, next) := ScanChoice(dialog[id], inputs, pos);
      var r := Converse(dialog, id, inputs, pos, codes);
      && (pick.ExitRequested? ==> r.outcome == Exited && r.codes == codes && r.consumed == next)
      && (pick.NoMoreInput? ==> r.outcome == InputExhausted && r.codes == codes)
      && (pick.Picked? ==> codes + CodesIn(dialog[id].choices[pick.index].effects) <= r.codes && r.steps >= 1)
      && (pick.Picked? && dialog[id].choices[pick.index].nextId.None? ==>
            r == Conversation(BranchEnded, codes + CodesIn(dialog[id].choices[pick.index].effects), 1, next))
      && (pick.Picked? && dialog[id].choices[pick.index].nextId.Some? ==>
            var c := dialog[id].choices[pick.index];
            var rest := Converse(dialog, c.nextId.value, inputs, next, codes + CodesIn(c.effects));
            r == rest.(steps := rest.steps + 1))
  {
    var (pick, next) := ScanChoice(dialog[id], inputs, pos);
    if pick.Picked? {
      var choice := dialog[id].choices[pick.index];
      ApplyEffectsAddsCodes(codes, choice.effects);
      if choice.nextId.Some? {
        ConverseKeepsCodes(dialog, choice.nextId.value, inputs, next, ApplyEffects(codes, choice.effects));
      }
    }
  }

  /**
    How a conversation ends is read off the input: an exit consumed an `x`,
    running out consumed everything, and a finished branch took a choice.
   */
  lemma {:induction false} ConverseEndsAtInput(dialog: Dialog, id: string, inputs: seq<DialogEntry>, pos: nat, codes: set<string>)
    requires pos <= |inputs|
    ensures var r := Converse(dialog, id, inputs, pos, codes);
      && (r.outcome == Exited ==> pos < r.consumed && inputs[r.consumed - 1] == ExitKey)
      && (r.outcome == InputExhausted ==> r.consumed == |inputs|)
      && (r.outcome == BranchEnded ==> 1 <= r.steps && pos < r.consumed)
      && (r.steps > 0 ==> pos < r.consumed)
    decreases |inputs| - pos
  {
    if id in dialog {
      var node := dialog[id];
      var (pick, next) := ScanChoice(node, inputs, pos);
      if pick.Picked? && node.choices[pick.index].nextId.Some? {
        var choice := node.choices[pick.index];
        ConverseEndsAtInput(dialog, choice.nextId.value, inputs, next, ApplyEffects(codes, choice.effects));
      }
    }
  }

  /** A conversation never forgets a code. */
  lemma {:induction false} ConverseKeepsCodes(dialog: Dialog, id: string, inputs: seq<DialogEntry>, pos: nat, codes: set<string>)
    requires pos <= |inputs|
    ensures codes <= Converse(dialog, id, inputs, pos, codes).codes
    decreases |inputs| - pos
  {
    if id in dialog {
      var node := dialog[id];
      var (pick, next) := ScanChoice(node, inputs, pos);
      if pick.Picked? && node.choices[pick.index].nextId.Some? {
        var learned := ApplyEffects(codes, node.choices[pick.index].effects);
        ConverseKeepsCodes(dialog, node.choices[pick.index].nextId.value, inputs, next, learned);
      }
    }
  }

  /** Some choice of the graph teaches `code`. */
  ghost predicate Teaches(dialog: Dialog, code: string) {
    exists id, c :: id in dialog && c in dialog[id].choices && code in CodesIn(c.effects)
  }

  /** A conversation only adds codes its robot's dialog teaches. */
  lemma {:induction false} ConverseLearnsOnlyTaught(dialog: Dialog, id: string, inputs: seq<DialogEntry>, pos: nat, codes: set<string>, code: string)
    requires pos <= |inputs|
    requires code in Converse(dialog, id, inputs, pos, codes).codes
    ensures code in codes || Teaches(dialog, code)
    decreases |inputs| - pos
  {
    if id in dialog {
      var node := dialog[id];
      var (pick, next) := ScanChoice(node, inputs, pos);
      if pick.Picked? {
        var choice := node.choices[pick.index];
        var learned := ApplyEffects(codes, choice.effects);
        ApplyEffectsAddsCodes(codes, choice.effects);
        if choice.nextId.Some? {
          ConverseLearnsOnlyTaught(dialog, choice.nextId.value, inputs, next, learned, code);
        }
        if code in learned && code !in codes {
          assert id in dialog && choice in dialog[id].choices && code in CodesIn(choice.effects);
        }
      }
    }
  }

  /** In a dialog without dangling choices, a conversation that starts at a node never hits a missing node. */
  lemma {:induction false} ConverseClosedNeverMissing(dialog: Dialog, id: string, inputs: seq<DialogEntry>, pos: nat, codes: set<string>)
    requires pos <= |inputs|
    requires Closed(dialog) && id in dialog
    ensures !Converse(dialog, id, inputs, pos, codes).outcome.MissingNode?
    decreases |inputs| - pos
  {
    var node := dialog[id];
    var (pick, next) := ScanChoice(node, inputs, pos);
    if pick.Picked? && node.choices[pick.index].nextId.Some? {
      var choice := node.choices[pick.index];
      assert TargetsIn(node, dialog);
      ConverseClosedNeverMissing(dialog, choice.nextId.value, inputs, next, ApplyEffects(codes, choice.effects));
    }
  }

  /** In a ranked (acyclic) dialog a conversation from node `id` takes at most `rank[id] + 1` choices. */
  lemma {:induction false} ConverseRankBound(dialog: Dialog, rank: map<string, nat>, id: string, inputs: seq<DialogEntry>, pos: nat, codes: set<string>)
    requires pos <= |inputs|
    requires RankedBy(dialog, rank) && id in dialog
    ensures Converse(dialog, id, inputs, pos, codes).steps <= rank[id] + 1
    decreases |inputs| - pos
  {
    var node := dialog[id];
    var (pick, next) := ScanChoice(node, inputs, pos);
    if pick.Picked? && node.choices[pick.index].nextId.Some? {
      var choice := node.choices[pick.index];
      assert Descends(node, dialog, rank, rank[id]);
      ConverseRankBound(dialog, rank, choice.nextId.value, inputs, next, ApplyEffects(codes, choice.effects));
    }
  }

  // ---------------- Talk ----------------

  datatype TalkOutcome = NoOneToTalkTo | TalkCancelled | InvalidRobot | Talked(robot: Robot, conversation: Conversation)

  /** `handle_talk`: pick a robot by number, then converse with it from its start node. */
  function Talk(robots: seq<Robot>, entry: NumberEntry, answers: seq<DialogEntry>, codes: set<string>): (r: TalkOutcome)
    ensures r == NoOneToTalkTo <==> robots == []
    ensures r == TalkCancelled <==> robots != [] && entry.Blank?
    ensures r == InvalidRobot <==> robots != [] && SelectNumbered(robots, entry).Invalid?
    ensures r.Talked? <==> robots != [] && SelectNumbered(robots, entry).Selected?
    ensures r.Talked? ==>
      && r.robot in robots
      && r.robot == SelectNumbered(robots, entry).item
      && r.conversation == Converse(r.robot.dialog, r.robot.startNode, answers, 0, codes)
      && codes <= r.conversation.codes
  {
    if robots == [] then NoOneToTalkTo
    else match SelectNumbered(robots, entry)
      case Cancelled => TalkCancelled
      case Invalid => InvalidRobot
      case Selected(robot) =>
        ConverseKeepsCodes(robot.dialog, robot.startNode, answers, 0, codes);
        Talked(robot, Converse(robot.dialog, robot.startNode, answers, 0, codes))
  }

  // ---------------- Station unlock ----------------

  datatype UnlockOutcome = NotAStation | AlreadyOperational | UnlockCancelled | Unlocked | IncorrectCode

  /**
    `try_unlock_station` at `region` whose flag is `operational`: the
    stripped code (not lower-cased) must be non-blank and known.
   */
  function Unlock(region: Region, operational: bool, codes: set<string>, raw: string): (r: UnlockOutcome)
    ensures r == Unlocked <==> region.isTrainStation && !operational && Strip(raw) != [] && Strip(raw) in codes
    ensures r == NotAStation <==> !region.isTrainStation
    ensures r == AlreadyOperational <==> region.isTrainStation && operational
    ensures r == UnlockCancelled <==> region.isTrainStation && !operational && Strip(raw) == []
  {
    if !region.isTrainStation then NotAStation
    else if operational then AlreadyOperational
    else
      var code := Strip(raw);
      if code == [] then UnlockCancelled
      else if code in codes then Unlocked
      else IncorrectCode
  }

  // ---------------- Train ride ----------------

  /** The ride menu: the city's neighborhood keys in order, without the current one. */
  function Destinations(order: seq<string>, current: string): (r: seq<string>)
    ensures forall k :: k in r <==> k in order && k != current
    ensures |r| <= |order|
  {
    if order == [] then []
    else
      var init, last := order[..|order| - 1], order[|order| - 1];
      Destinations(init, current) + (if last == current then [] else [last])
  }

  /** The destinations keep the city's order: filtering distributes over concatenation. */
  lemma {:induction false} DestinationsAppend(a: seq<string>, b: seq<string>, current: string)
    ensures Destinations(a + b, current) == Destinations(a, current) + Destinations(b, current)
    decreases |b|
  {
    if b != [] {
      var init, last := b[..|b| - 1], b[|b| - 1];
      assert (a + b)[..|a + b| - 1] == a + init;
      DestinationsAppend(a, init, current);
    } else {
      assert a + b == a;
    }
  }

  /** A city whose only neighborhood is the current one offers no destination. */
  lemma NoDestinationFromOnlyNeighborhood(current: string)
    ensures Destinations([current], current) == []
  {
  }

  datatype RideOutcome =
    | NotOperational
    | NoOtherStations
    | RideCancelled
    | InvalidDestination
    | Arrived(neighborhood: string, region: string)

  /**
    `handle_ride_train` at `region`, whose station flag is `operational`, in
    neighborhood `current` of `city`.
   */
  function Ride(city: City, current: string, region: Region, operational: bool, entry: NumberEntry): (r: RideOutcome)
    requires CityWellFormed(city)
    ensures r.Arrived? ==>
      && r.neighborhood != current
      && r.neighborhood in city.neighborhoods
      && r.region == city.neighborhoods[r.neighborhood].stationRegionKey
      && r.region in city.neighborhoods[r.neighborhood].regions
    ensures r == NotOperational <==> !(region.isTrainStation && operational)
    ensures r == NoOtherStations <==> region.isTrainStation && operational && city.neighborhoods.Keys <= {current}
    ensures var dests := Destinations(city.neighborhoodOrder, current);
      && (r == RideCancelled <==> region.isTrainStation && operational && dests != [] && entry.Blank?)
      && (r == InvalidDestination <==> region.isTrainStation && operational && dests != [] && SelectNumbered(dests, entry).Invalid?)
      && (r.Arrived? <==> region.isTrainStation && operational && dests != [] && SelectNumbered(dests, entry).Selected?)
      && (r.Arrived? ==> SelectNumbered(dests, entry) == Selected(r.neighborhood))
  {
    if !(region.isTrainStation && operational) then NotOperational
    else
      var dests := Destinations(city.neighborhoodOrder, current);
      if dests == [] then NoOtherStations
      else
        assert dests[0] in city.neighborhoods && dests[0] != current;
        match SelectNumbered(dests, entry)
        case Cancelled => RideCancelled
        case Invalid => InvalidDestination
        case Selected(k) =>
          assert NeighborhoodWellFormed(city.neighborhoods[k]);
          Arrived(k, city.neighborhoods[k].stationRegionKey)
  }

  // ---------------- Exploration menu ----------------

  datatype Command = Quit | MoveCmd | TalkCmd | RideCmd | InvalidCmd

  /** `exploration_input`: which handler the stripped, lower-cased menu answer runs. */
  function Dispatch(region: Region, operational: bool, raw: string): (c: Command)
    ensures c == Quit <==> Normalize(raw) == "q"
    ensures c == MoveCmd <==> Normalize(raw) == "m"
    ensures c == TalkCmd <==> Normalize(raw) == "t"
    ensures c == RideCmd <==> Normalize(raw) == "r" && region.isTrainStation && operational
    ensures c == InvalidCmd <==> Normalize(raw) !in {"q", "m", "t", "r"} || (Normalize(raw) == "r" && !(region.isTrainStation && operational))
  {
    var choice := Normalize(raw);
    if choice == "q" then Quit
    else if choice == "m" then MoveCmd
    else if choice == "t" then TalkCmd
    else if choice == "r" && region.isTrainStation && operational then RideCmd
    else InvalidCmd
  }

  // ---------------- Player state after a turn ----------------

  /** `handle_move` writes only `region_key`, and only after a successful move. */
  function AfterMove(p: PlayerState, o: MoveOutcome): (r: PlayerState)
    ensures r.cityKey == p.cityKey && r.neighborhoodKey == p.neighborhoodKey && r.knownCodes == p.knownCodes
    ensures r.regionKey == if o.Moved? then o.destination else p.regionKey
  {
    if o.Moved? then p.(regionKey := o.destination) else p
  }

  /** A conversation writes only `known_codes`: the player does not move. */
  function AfterTalk(p: PlayerState, o: TalkOutcome): (r: PlayerState)
    ensures AddressOf(r) == AddressOf(p)
    ensures r.knownCodes == if o.Talked? then o.conversation.codes else p.knownCodes
  {
    if o.Talked? then p.(knownCodes := o.conversation.codes) else p
  }

  /** A ride writes `neighborhood_key` and `region_key` on arrival; the city and the codes stay. */
  function AfterRide(p: PlayerState, o: RideOutcome): (r: PlayerState)
    ensures r.cityKey == p.cityKey && r.knownCodes == p.knownCodes
    ensures o.Arrived? ==> r.neighborhoodKey == o.neighborhood && r.regionKey == o.region
    ensures !o.Arrived? ==> r == p
  {
    if o.Arrived? then p.(neighborhoodKey := o.neighborhood, regionKey := o.region) else p
  }
}
