# Roboworld in Dafny

Roboworld is a small text adventure. The player starts in the Square of
Central Yard, a neighborhood of Alpha City. They walk between regions along
labelled connections and talk to robots through numbered dialog menus. Ada
teaches them the station override code ORANGE-7, which unlocks the train
station. An operational station offers rides to the city's other
neighborhoods, and Alpha City has none.

This project models the game engine (`roboworld/game.py`), its data model
(`roboworld/models.py`) and the one world it builds (`roboworld/world_data.py`):

- `Wrappers.dfy`: the `Option` type.
- `Text.dfy`: the Python string operations the engine uses on ASCII text:
  `strip`, `lower`, `startswith` and `split(":", 1)[1]`.
- `Models.dfy`: the dataclasses as datatypes, together with the integrity
  conditions the source documents but never enforces. These are dialog
  graphs without dangling `next_id`s, dialog graphs without cycles, and
  connections that stay inside their neighborhood.
- `WorldData.dfy`: `create_world()` as constants, with proofs that the world
  it builds meets those conditions.
- `Rules.dfy`: every decision of the engine as a function of the player's
  answers and the current state. This covers moving, Python-style numbered
  selection, the dialog prompt, `gain:` effects, a whole conversation,
  unlocking the station, the ride and the exploration menu. The properties
  of these functions are proved as lemmas.
- `Engine.dfy`: the `Game` class. Its methods update the player state
  step by step with the same loops as the source. Each method is proved to
  agree with the corresponding function in `Rules`.
- `Scenarios.dfy`: what those rules mean in the created world. This covers
  the moves, what Ada and Bolt can teach, how long their conversations
  last, the unlock puzzle and an empty ride line. It ends with the whole
  walkthrough played on a `Game`.

Every console prompt becomes a parameter holding the player's answer. Every
printed message becomes an outcome value. A prompt that reads several times
(the dialog prompt and the conversation loop) takes a sequence of answers
and a position in it.

The engine's behaviour differs in a few places from what its prompts and
comments suggest. The model follows the code:

- A robot or ride destination is selected with `list[int(raw) - 1]`. So `0`
  and negative numbers down to `1 - len` are accepted and count from the
  end of the list. Only numbers greater than `len` or below `1 - len` are
  invalid.
- A ride destination is chosen by its position in the list of other
  neighborhoods, taken in the city's key order.
- Only the typed movement label is lower-cased. A connection key that
  contains an upper-case letter can never be matched.
- The unlock code is stripped but not lower-cased, so the match is
  case-sensitive.
- A choice whose `next_id` names no node makes the next lookup raise
  `KeyError`. This is modelled as the `MissingNode` outcome.
- At a locked station the menu has no ride option, and `r` is rejected as
  an invalid choice.

## Model

| member | source | states |
|---|---|---|
| Text.TrimStart | roboworld/game.py:106 | `lstrip`: the result is a suffix of the input, every character removed is whitespace, and the result does not start with whitespace |
| Text.TrimEnd | roboworld/game.py:106 | `rstrip`: the result is a prefix of the input, every character removed is whitespace, and the result does not end with whitespace |
| Text.Strip | roboworld/game.py:86 | `strip`: the result is a contiguous slice of the input with no whitespace at either end |
| Text.Lower | roboworld/game.py:106 | `lower`: the result has the same length, each upper-case letter becomes its lower-case letter (code + 32), and every other character is unchanged |
| Text.Normalize | roboworld/game.py:86 | `strip().lower()` as applied to menu answers, move labels and dialog answers: no longer than the input, no whitespace at either end, no upper-case letter |
| Text.NormalizeFixed | roboworld/game.py:106 | Stripping and lower-casing leave unchanged a text that is already trimmed and lower-case |
| Text.FirstIndexOf | roboworld/game.py:145 | Returns the first position of the separator, or reports that it does not occur |
| Text.AfterFirst | roboworld/game.py:145 | `split(sep, 1)[1]` exists exactly when `sep` occurs, and is the text after its first occurrence |
| Models.RankedIsClosed | roboworld/models.py:21-27 | A dialog graph with a rank that decreases along every choice has no dangling `next_id` |
| Models.Defaults | roboworld/models.py:16-49 | The default factories give no effects, no choices, no robots, not a station and locked |
| WorldData.KeyedRegions | roboworld/world_data.py:137 | The dict comprehension stores each region under its own key, has a key for every region, and stores the last region under its key |
| WorldData.KeyedRegionsLaterWins | roboworld/world_data.py:137 | For a repeated key the later region wins: every region that no later region shares a key with is stored under its key |
| WorldData.CentralYardRegions | roboworld/world_data.py:111-143 | Central Yard holds exactly the Square, the Workshop and the Station, each under its own key |
| WorldData.CreateWorld | roboworld/world_data.py:20-147 | `create_world()` builds one city, Alpha City, and a well-formed world: every neighborhood has its station region, every region is keyed by its own key, and every connection stays inside its neighborhood |
| WorldData.AlphaWorldWellFormed | roboworld/world_data.py:145-146 | The world holding only Alpha City is well formed |
| WorldData.AlphaCityWellFormed | roboworld/world_data.py:145 | Alpha City lists its neighborhoods once each, exactly the keys of its map, and each of them is well formed |
| WorldData.CentralYardWellFormed | roboworld/world_data.py:111-143 | Central Yard's station key names a region, and every region's key and connections are consistent |
| WorldData.CentralYardConnected | roboworld/world_data.py:111-135 | Every connection of the three regions names one of the three regions |
| WorldData.StationStartsLocked | roboworld/world_data.py:127-142 | Central Yard's station region is a train station and starts locked |
| WorldData.Occupants | roboworld/world_data.py:111-137 | Bolt is in the Square, Ada is in the Workshop and the Station is empty |
| WorldData.OneNeighborhood | roboworld/world_data.py:145-146 | The world has one city, and that city has one neighborhood, Central Yard |
| WorldData.AdaWellFormed | roboworld/world_data.py:35-82 | Ada's dialog starts at an existing node, stores each node under its id and has no dangling choice |
| WorldData.BoltWellFormed | roboworld/world_data.py:84-108 | Bolt's dialog starts at an existing node, stores each node under its id and has no dangling choice |
| WorldData.AdaAcyclic | roboworld/world_data.py:35-80 | Ada's dialog is a DAG, as the node docstring promises: ranks 2, 1 and 0 decrease along every choice |
| WorldData.BoltAcyclic | roboworld/world_data.py:84-106 | Bolt's dialog is a DAG: ranks 1 and 0 decrease along every choice |
| Rules.Move | roboworld/game.py:100-110 | The move refuses with "no exits" exactly when the region has no connections; a successful move goes to a region the connections name |
| Rules.MoveSucceedsIff | roboworld/game.py:100-110 | A move succeeds exactly when the normalized label is a connection, and it goes to that connection's region; a region without connections refuses every move |
| Rules.MoveStaysInNeighborhood | roboworld/game.py:107-108 | In a well-formed neighborhood, a successful move lands on a region of the same neighborhood |
| Rules.MoveByExactLabel | roboworld/game.py:106-108 | A trimmed, lower-case connection label is followed as typed |
| Rules.UpperCaseLabelUnreachable | roboworld/game.py:106-107 | No typed label normalizes to a connection label that contains an upper-case letter, so such a label can never be matched |
| Rules.PyIndex | roboworld/game.py:125 | Python `list[i]`: succeeds exactly for `-len <= i < len`, and gives the element at `i` taken modulo `len` |
| Rules.SelectNumbered | roboworld/game.py:120-128 | Blank cancels; a number selects exactly when it lies between `1 - len` and `len`; a positive number picks entry `n - 1` and any other number picks from the end |
| Rules.ZeroSelectsLast | roboworld/game.py:124-125 | Answering `0` picks the last entry of a non-empty list |
| Rules.ChoiceIndex | roboworld/game.py:164-167 | A dialog answer is accepted exactly when it is a number from 1 to the number of choices, and it selects choice `n - 1` |
| Rules.ScanChoice | roboworld/game.py:159-170 | The first `x` or listed number decides the pick, and every answer skipped before it was rejected |
| Rules.GainedCode | roboworld/game.py:144-145 | Only an effect starting with `gain:` teaches a code, and the code is shorter than the effect |
| Rules.GainedCodeIsSuffix | roboworld/game.py:144-145 | An effect teaches a code exactly when it starts with `gain:`, and that code is the rest of the effect after `gain:` |
| Rules.CodesInSingle | roboworld/game.py:143-146 | A single effect teaches its `gain:` code, and no effects teach nothing |
| Rules.ApplyEffect | roboworld/game.py:144-146 | One effect adds exactly the code it teaches to the known codes |
| Rules.ApplyEffects | roboworld/game.py:143-146 | Applying effects never removes a known code |
| Rules.ApplyEffectsAddsCodes | roboworld/game.py:143-146 | Applying a choice's effects adds exactly the codes they teach |
| Rules.ApplyEffectsIdempotent | roboworld/game.py:146 | Applying the same effects again changes nothing, because codes form a set |
| Rules.Converse | roboworld/game.py:132-151 | A conversation reads answers forward and never reads past the end of its input |
| Rules.ConverseFirstPick | roboworld/game.py:137-151 | The first answer read decides how the conversation goes on: `x` exits with the codes unchanged, running out of answers ends it with the codes unchanged, a picked choice teaches its codes, a picked choice without a next node ends the branch after one choice with exactly those codes, and one with a next node continues the conversation at that node with those codes, one choice counted |
| Rules.ConverseEndsAtInput | roboworld/game.py:137-170 | An exit consumed an `x` answer, running out consumed every answer, and an ended branch took at least one choice and consumed its answer |
| Rules.ConverseKeepsCodes | roboworld/game.py:132-151 | A conversation never forgets a code |
| Rules.ConverseLearnsOnlyTaught | roboworld/game.py:132-151 | Every code a conversation adds is taught by some choice of the robot's dialog |
| Rules.ConverseClosedNeverMissing | roboworld/game.py:135 | In a dialog without dangling choices, a conversation from an existing node never reaches a missing node |
| Rules.ConverseRankBound | roboworld/game.py:132-151 | In an acyclic dialog, a conversation from node `id` takes at most `rank[id] + 1` choices |
| Rules.Talk | roboworld/game.py:112-129 | Nobody to talk to exactly when the region has no robots; otherwise blank cancels, an answer that selects no robot is invalid, and one that selects a robot (by `SelectNumbered`, with the index quirk) holds the conversation with exactly that robot from its start node, keeping every known code |
| Rules.Unlock | roboworld/game.py:173-188 | Each outcome holds exactly in its case: no station, already operational, blank code, or a known, non-blank, stripped code that unlocks |
| Rules.Destinations | roboworld/game.py:197-203 | A key is a destination exactly when it is a neighborhood of the city other than the current one |
| Rules.DestinationsAppend | roboworld/game.py:197-203 | The destinations keep the city's order |
| Rules.NoDestinationFromOnlyNeighborhood | roboworld/game.py:199-206 | A city whose only neighborhood is the current one offers no destination |
| Rules.Ride | roboworld/game.py:191-222 | Refused exactly when the station is not operational; no other stations exactly when the city has no neighborhood besides the current one; otherwise blank cancels, an answer selecting no destination is invalid, and one selecting a destination (by `SelectNumbered` over the other neighborhoods in order) arrives at exactly that neighborhood's station region |
| Rules.Dispatch | roboworld/game.py:80-98 | After `strip().lower()`: `q` quits, `m` moves and `t` talks, each exactly when typed; `r` rides exactly at an operational station; any other answer, and `r` elsewhere, is invalid |
| Rules.AfterMove | roboworld/game.py:108 | A move writes only the region key, and only when it succeeds |
| Rules.AfterTalk | roboworld/game.py:146 | A conversation leaves the position alone and sets the known codes to those it ends with |
| Rules.AfterRide | roboworld/game.py:220-221 | A ride keeps the city and the codes, and on arrival sets the neighborhood and region keys to the destination's |
| Engine.InitialPlayer | roboworld/game.py:33-38 | The start position resolves in the created world and no code is known |
| Engine.Game.constructor | roboworld/game.py:30-38 | A new game holds the created world, starts in Alpha City, Central Yard, the Square with no codes, and its position resolves |
| Engine.Game.CurrentCity | roboworld/game.py:41-42 | The current city is well formed and contains the player's neighborhood |
| Engine.Game.CurrentNeighborhood | roboworld/game.py:44-45 | The current neighborhood is well formed and contains the player's region |
| Engine.Game.CurrentRegion | roboworld/game.py:47-48 | The current region carries the player's region key and all its connections stay in the neighborhood |
| Engine.Game.StationFlag | roboworld/game.py:173-185 | A region counts as operational only if it was created unlocked or is a train station: play unlocks nothing but train stations |
| Engine.Game.ExplorationInput | roboworld/game.py:80-98 | Returns false exactly on quit, runs the handler the menu answer selects, and the position still resolves |
| Engine.Game.HandleMove | roboworld/game.py:100-110 | The outcome is `Move` of the old region; only the region key changes, and only on success; the position still resolves |
| Engine.Game.HandleTalk | roboworld/game.py:112-129 | The outcome is `Talk` in the old region; only the known codes change, to those the conversation ends with |
| Engine.Game.ConversationLoop | roboworld/game.py:132-151 | The loop ends with exactly the outcome and codes of `Converse` from the robot's start node |
| Engine.Game.ApplyChoiceEffects | roboworld/game.py:143-146 | The effect loop leaves the known codes equal to `ApplyEffects` of the old codes |
| Engine.Game.GetDialogChoice | roboworld/game.py:159-170 | The prompt loop returns the pick and position of `ScanChoice` |
| Engine.Game.ListDestinations | roboworld/game.py:197-203 | The comprehension loop builds exactly `Destinations` of the city's key order |
| Engine.Game.TryUnlockStation | roboworld/game.py:173-188 | The outcome is `Unlock` of the old state; the station flag becomes set exactly when the outcome is `Unlocked`, and a set flag stays set; the player is unchanged |
| Engine.Game.HandleRideTrain | roboworld/game.py:191-222 | The outcome is `Ride` of the old state; on arrival, the player is at the chosen neighborhood's station region |
| Scenarios.InitialPositionResolves | roboworld/game.py:30-38 | The start position resolves in the created world, and the region it names is the Square |
| Scenarios.SquareConnections | roboworld/world_data.py:111-117 | From the Square, `east` reaches the Workshop and `south` reaches the Station |
| Scenarios.WorkshopConnections | roboworld/world_data.py:119-125 | From the Workshop, `west` reaches the Square |
| Scenarios.NorthFromSquareFails | roboworld/game.py:107-110 | `north` is not a connection of the Square, so the move fails |
| Scenarios.MoveIgnoresPaddingAndCase | roboworld/game.py:106-108 | `"  EaSt "` is stripped and lower-cased, and leads from the Square to the Workshop |
| Scenarios.AdaTeachesTheCode | roboworld/world_data.py:35-80 | Talking to Ada and answering 1 and then 1 reaches `station_info`, learns ORANGE-7 and ends the branch after two choices |
| Scenarios.StationInfoTeaches | roboworld/world_data.py:66-79 | Answering 1 at `station_info` learns ORANGE-7 and ends the branch |
| Scenarios.AdaTeachesOnlyOrange7 | roboworld/world_data.py:35-80 | Ada's dialog teaches ORANGE-7 and no other code |
| Scenarios.BoltTeachesNothing | roboworld/world_data.py:84-106 | Bolt's dialog teaches no code |
| Scenarios.TalkTeachesOnlyOrange7 | roboworld/game.py:112-151 | Whatever the player answers, talking in Central Yard can add no code other than ORANGE-7 |
| Scenarios.ConversationsAreShort | roboworld/world_data.py:35-108 | Every conversation with Ada or Bolt ends within three choices and never reaches a missing node |
| Scenarios.RightCodeUnlocks | roboworld/game.py:181-186 | The learned code unlocks the locked station, also when surrounded by whitespace |
| Scenarios.WrongCodeFails | roboworld/game.py:184-188 | An unknown code leaves the station locked |
| Scenarios.UnlockNoOps | roboworld/game.py:173-183 | An operational station reports itself operational, a blank code cancels, and a region that is not a station has no panel |
| Scenarios.RideHasNoDestination | roboworld/game.py:191-206 | In Alpha City the operational station offers no destination, and the locked one refuses to run |
| Scenarios.Walkthrough | roboworld/game.py:100-222 | On a new game: move east, learn the code from Ada, go back west, go south, unlock the station; the ride then finds no other station |

## Left out

- Console output (`show_exploration`, `render_dialog` and every `print`): it only displays state. Region, neighborhood and city names, descriptions and dialog text are dropped from the datatypes; a robot keeps its name.
- The `run` loop and `main` (game.py:225-251), including the unlock offer made before each menu. The model provides the single steps `TryUnlockStation` and `ExplorationInput` that the loop alternates, but no loop over them.
- `int()` parsing: a prompt answer is given already parsed, as a number or as "not a number".
- End of input: Python raises `EOFError` when input runs out. The model stops with `NoMoreInput` or `InputExhausted` instead.
- Text: only ASCII whitespace and letters are modelled. Non-ASCII whitespace and Unicode case mapping are not.
- `station_unlocked` updated in place: the world stays a constant value, and `Game.unlocked` records the stations unlocked since. `StationFlag` combines the two.
- Dict ordering: `City.neighborhoodOrder` stands for the insertion order of the neighborhood dict, which the ride menu lists in.
- Engine.Game.ConversationLoop: the robot's `dialog` is not required to be well formed, as in the source. A dangling `next_id` ends the conversation with `MissingNode` rather than an exception.
