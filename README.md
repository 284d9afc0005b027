# Scotland Yard rules engine, modelled in Dafny

This project models the turn engine of a Scotland Yard board game, `ScotlandYardModel` with its helper `NotifySpectators`. In the game Mr X (colour Black) moves in hiding over a transport map, and the detectives try to land on his node.

The engine is an object whose fields change as the game runs. It is modelled as the class `Engine.ScotlandYardModel`, which holds:

- the round schedule and the map;
- the player list;
- the round counter, the "rotation finished" flag and the index of the player to move;
- the location last revealed for Mr X;
- the set of moves on offer;
- the spectator list.

Its methods change these fields as the Java methods do. Every public method that changes the game (`Create`, `RegisterSpectator`, `UnregisterSpectator`, `StartRotate`, `Accept`) is proved to keep the class invariant `Valid()`. The internal steps `AdvanceTurn`, `PlayMove`, `PlayTicketMove` and `PlayDoubleMove` do not keep it on their own. `EndTurn` restores it.

The purely computational parts are functions with lemmas about them:

- `Moves`: legal-move generation — single moves by transport or by secret ticket, excluding nodes held by another detective; double moves; a pass for a stuck detective.
- `Outcomes`: the four ordered win rules.
- `Setup`: the constructor's argument checks.
- `Transition`: what a move does to the players, the round counter and the revealed location.
- `Notify`: what each spectator is told.

Each loop of the source is a method proved equal to the function that specifies it.

Spectator callbacks are recorded as an event trace, the field `events`. The callback that asks a player for a move becomes the value `accept` returns: it says whom to prompt, with which moves, or that the rotation or the game has ended.

Where the code and its design intent differ, the model follows the code:

- On Mr X's single move, each spectator hears "round started" before "move made". Each later spectator in the list is told a round number one lower than the spectator before it, because the shared counter is decremented in the loop.
- On a double move started in round r, the move itself is announced for round r and judged against `rounds[r]` and `rounds[r+1]`, as intended. Each leg's notifier, though, is judged against the entry after the round that leg is played in:
  - Leg one reads `rounds[r+1]` and is followed by a round-started event for r+1.
  - Leg two reads `rounds[r+2]`, and no round event follows it.
  - The destinations handed to these notifiers are already the disclosed ones (`Notify.ShownOwnDestination`, `Transition.ShownDoubleMatchesDisclosed`). The shifted read therefore changes nothing that is shown. The one exception is the read past the end of the schedule when the double starts in the last-but-one round.

The source can read the schedule outside its bounds in two ways:

- On Mr X's ticket move, the per-spectator decrement reads below index 0. This happens once there are more spectators than rounds played counting this move, for example two spectators on his first move.
- On a double move started in the last-but-one round, with someone watching, the source reads the entry one past the end.

Both reads are excluded by a precondition of `accept` (`Transition.ScheduleReadsInRange`). `Transition.FirstMoveReadsBeforeSchedule` and `Transition.OfferedPlaysReadOutsideSchedule` show that legal, offered plays break this precondition.

The decrement also defeats concealment. When Mr X moves in a hidden round right after a reveal round, the second spectator is shown his true destination (`Transition.AltLeaksHiddenDestination`). So the intended rule, that a hidden-round move is always shown at the last disclosed location, holds only for the first spectator.

## Model

| member | source | states |
|---|---|---|
| Types.RemoveTicket | cw-model/src/main/java/uk/ac/bris/cs/scotlandyard/model/ScotlandYardModel.java:279 | spending a ticket lowers that kind by one, leaves every other kind alone, lowers the total by one and keeps all five kinds listed |
| Types.AddTicket | cw-model/src/main/java/uk/ac/bris/cs/scotlandyard/model/ScotlandYardModel.java:287 | receiving a ticket raises that kind by one and the total by one; no other kind changes |
| Roster.MrXOnlyFirst | cw-model/src/main/java/uk/ac/bris/cs/scotlandyard/model/ScotlandYardModel.java:62-77 | in a valid roster the black player is exactly the first entry |
| Roster.FindPlayer | cw-model/src/main/java/uk/ac/bris/cs/scotlandyard/model/ScotlandYardModel.java:439-446 | returns the first index holding the colour; no earlier entry has it |
| Roster.FoundIsUnique | cw-model/src/main/java/uk/ac/bris/cs/scotlandyard/model/ScotlandYardModel.java:88-93 | with distinct colours, the index found is the only one with that colour |
| Notify.RepresentDisclosesNoMore | cw-model/src/main/java/uk/ac/bris/cs/scotlandyard/model/NotifySpectators.java:6-40 | every shown form of a double move keeps the colour and both tickets; each shown destination is the true one on a reveal round and otherwise the last disclosed location |
| Notify.MoveMadeEachAt | cw-model/src/main/java/uk/ac/bris/cs/scotlandyard/model/NotifySpectators.java:78-80 | the pass trace has one move-made event per spectator, the i-th going to the i-th spectator |
| Notify.GameOverEachAt | cw-model/src/main/java/uk/ac/bris/cs/scotlandyard/model/NotifySpectators.java:82-84 | one game-over event with the winner set per spectator, in list order |
| Notify.MoveThenRoundEachAt | cw-model/src/main/java/uk/ac/bris/cs/scotlandyard/model/NotifySpectators.java:56-66 | spectator i gets move-made at position 2i and round-started at 2i+1 |
| Notify.AltEventsAt | cw-model/src/main/java/uk/ac/bris/cs/scotlandyard/model/NotifySpectators.java:42-54 | for Mr X, spectator i is told round `round - i` first and is then shown the move, judged against schedule entry `round - 1 - i` |
| Notify.AltEventsDetective | cw-model/src/main/java/uk/ac/bris/cs/scotlandyard/model/NotifySpectators.java:42-54 | a detective's move is shown verbatim, once per spectator, with no round event |
| Notify.ShownOwnDestination | cw-model/src/main/java/uk/ac/bris/cs/scotlandyard/model/NotifySpectators.java:42-76 | showing a move with its own destination as the disclosed one shows the move unchanged, on any round |
| Notify.DoubleMoveNotif | cw-model/src/main/java/uk/ac/bris/cs/scotlandyard/model/NotifySpectators.java:6-40 | with no spectators the move is returned unchanged; otherwise the representation picked from the two schedule entries is returned, and every spectator gets it followed by the round |
| Notify.TicketMoveWithRoundNotifAlt | cw-model/src/main/java/uk/ac/bris/cs/scotlandyard/model/NotifySpectators.java:42-54 | the events emitted equal the specified trace, with the per-spectator decrement of the round |
| Notify.TicketMoveWithRoundNotif | cw-model/src/main/java/uk/ac/bris/cs/scotlandyard/model/NotifySpectators.java:56-66 | the events emitted equal the specified move-then-round trace |
| Notify.TicketMoveNotif | cw-model/src/main/java/uk/ac/bris/cs/scotlandyard/model/NotifySpectators.java:68-76 | the events emitted equal the specified move-only trace |
| Notify.PassMoveNotif | cw-model/src/main/java/uk/ac/bris/cs/scotlandyard/model/NotifySpectators.java:78-80 | one move-made event per spectator |
| Notify.GameOverNotif | cw-model/src/main/java/uk/ac/bris/cs/scotlandyard/model/NotifySpectators.java:82-84 | one game-over event per spectator |
| Moves.MovesAlongLegal | cw-model/src/main/java/uk/ac/bris/cs/scotlandyard/model/ScotlandYardModel.java:151-168 | a move is generated from a list of edges exactly when it is the player's own, spends a held ticket, follows one of the edges by that edge's ticket or by a secret ticket, and no other detective stands on its destination |
| Moves.TicketMovesLegal | cw-model/src/main/java/uk/ac/bris/cs/scotlandyard/model/ScotlandYardModel.java:142-175 | the same if-and-only-if for the edges out of a node |
| Moves.MrXNeverStepsOntoDetective | cw-model/src/main/java/uk/ac/bris/cs/scotlandyard/model/ScotlandYardModel.java:154-161 | no single move offered to Mr X ends on a detective |
| Moves.DoubleMovesLegal | cw-model/src/main/java/uk/ac/bris/cs/scotlandyard/model/ScotlandYardModel.java:178-205 | a double move is generated exactly when the round is not the last, a DOUBLE ticket is held, both legs are legal single moves (the second from the first's destination), and the leg tickets are held: two of a kind when both legs use it |
| Moves.ValidMovesOwnColour | cw-model/src/main/java/uk/ac/bris/cs/scotlandyard/model/ScotlandYardModel.java:209-224 | every move offered belongs to the player asked |
| Moves.ValidMovesShape | cw-model/src/main/java/uk/ac/bris/cs/scotlandyard/model/ScotlandYardModel.java:209-224 | a detective never gets a double move; it gets a pass exactly when it has no single move, and then only the pass; Mr X never gets a pass and gets nothing exactly when he has no single move |
| Moves.DetectiveTicketHeld | cw-model/src/main/java/uk/ac/bris/cs/scotlandyard/model/ScotlandYardModel.java:164-168 | a detective's offered single move spends a ticket it holds, never DOUBLE or SECRET |
| Moves.GetTicketMoves | cw-model/src/main/java/uk/ac/bris/cs/scotlandyard/model/ScotlandYardModel.java:142-175 | the nested loop, with the occupancy flag carried between edges as written, yields exactly the specified single moves |
| Moves.GetDoubleMoves | cw-model/src/main/java/uk/ac/bris/cs/scotlandyard/model/ScotlandYardModel.java:178-205 | the two loops yield exactly the specified double moves |
| Moves.GetValidMoves | cw-model/src/main/java/uk/ac/bris/cs/scotlandyard/model/ScotlandYardModel.java:209-224 | yields exactly the specified offer |
| Outcomes.GameOverIffWinners | cw-model/src/main/java/uk/ac/bris/cs/scotlandyard/model/ScotlandYardModel.java:356-367 | somebody has won exactly when the winner set is non-empty; Mr X's win is {Black}; a detective win never includes Black |
| Outcomes.WinPrecedence | cw-model/src/main/java/uk/ac/bris/cs/scotlandyard/model/ScotlandYardModel.java:391-425 | a stuck Mr X loses even after the last round; after the last round Mr X wins even if caught; otherwise a caught Mr X loses even if the detectives have no tickets |
| Outcomes.Winners | cw-model/src/main/java/uk/ac/bris/cs/scotlandyard/model/ScotlandYardModel.java:391-425 | returns the outcome of the four win rules in source order |
| Outcomes.ScanDetectives | cw-model/src/main/java/uk/ac/bris/cs/scotlandyard/model/ScotlandYardModel.java:408-421 | finds a detective on Mr X's node exactly when one exists; otherwise reports whether the detectives' ticket sum is non-zero |
| Outcomes.CollectDetectiveColours | cw-model/src/main/java/uk/ac/bris/cs/scotlandyard/model/ScotlandYardModel.java:359-362 | a colour is collected exactly when some detective in the roster has it |
| Setup.FirstTicketErrorNone | cw-model/src/main/java/uk/ac/bris/cs/scotlandyard/model/ScotlandYardModel.java:99-112 | the ticket pass finds no error exactly when no configuration has one |
| Setup.FirstTicketErrorSticks | cw-model/src/main/java/uk/ac/bris/cs/scotlandyard/model/ScotlandYardModel.java:99-112 | the first configuration with a ticket error decides the pass's verdict |
| Setup.ConfigAcceptedIff | cw-model/src/main/java/uk/ac/bris/cs/scotlandyard/model/ScotlandYardModel.java:51-112 | a configuration is accepted exactly when the rounds and the map are non-empty, Mr X is black, locations and colours are pairwise distinct, every player lists all five kinds, and no detective holds DOUBLE or SECRET tickets |
| Setup.ValidConfigMakesRoster | cw-model/src/main/java/uk/ac/bris/cs/scotlandyard/model/ScotlandYardModel.java:114-122 | an accepted configuration yields a roster meeting the engine's invariant |
| Setup.Validate | cw-model/src/main/java/uk/ac/bris/cs/scotlandyard/model/ScotlandYardModel.java:51-112 | the checks, with their early exits, return the first failing check in source order, or none |
| Setup.HasDuplicateLocation | cw-model/src/main/java/uk/ac/bris/cs/scotlandyard/model/ScotlandYardModel.java:83-87 | reports a duplicate exactly when two configurations share a location |
| Setup.HasDuplicateColour | cw-model/src/main/java/uk/ac/bris/cs/scotlandyard/model/ScotlandYardModel.java:89-93 | reports a duplicate exactly when two configurations share a colour |
| Setup.CheckTickets | cw-model/src/main/java/uk/ac/bris/cs/scotlandyard/model/ScotlandYardModel.java:99-112 | returns the ticket error of the first offending configuration |
| Setup.BuildPlayers | cw-model/src/main/java/uk/ac/bris/cs/scotlandyard/model/ScotlandYardModel.java:117-122 | one player per configuration, in order, with its colour, location and tickets |
| Transition.PlayersAfter | cw-model/src/main/java/uk/ac/bris/cs/scotlandyard/model/ScotlandYardModel.java:278-325 | a move keeps the number of players and every player's colour |
| Transition.PlayersAfterKeepsRoster | cw-model/src/main/java/uk/ac/bris/cs/scotlandyard/model/ScotlandYardModel.java:278-325 | every offered move keeps the roster invariant |
| Transition.SingleMoveEffect | cw-model/src/main/java/uk/ac/bris/cs/scotlandyard/model/ScotlandYardModel.java:278-288 | the mover reaches the destination and loses that ticket; a detective's spent ticket goes to Mr X, who stays put; other detectives are untouched |
| Transition.DoubleMoveEffect | cw-model/src/main/java/uk/ac/bris/cs/scotlandyard/model/ScotlandYardModel.java:295-315 | Mr X ends on the second destination and spends DOUBLE plus one ticket per leg (three in total); nobody else changes |
| Transition.PassMoveEffect | cw-model/src/main/java/uk/ac/bris/cs/scotlandyard/model/ScotlandYardModel.java:323-325 | a pass changes no player |
| Transition.DetectiveTicketsUpdate | cw-model/src/main/java/uk/ac/bris/cs/scotlandyard/model/ScotlandYardModel.java:408-421 | replacing one player changes the detectives' ticket sum by that player's own change |
| Transition.TicketFlow | cw-model/src/main/java/uk/ac/bris/cs/scotlandyard/model/ScotlandYardModel.java:278-325 | a detective's move passes one ticket from the detectives to Mr X; Mr X's single move costs him one ticket and his double move three; the detectives' total never grows |
| Transition.RevealTracksTruth | cw-model/src/main/java/uk/ac/bris/cs/scotlandyard/model/ScotlandYardModel.java:282-312 | the disclosed location becomes Mr X's new node after a reveal round (the first leg's node if only the first leg is on one) and otherwise stays the last disclosed one |
| Transition.ShownDoubleMatchesDisclosed | cw-model/src/main/java/uk/ac/bris/cs/scotlandyard/model/ScotlandYardModel.java:295-320 | the double move spectators are shown carries, as its destinations, exactly the locations the engine discloses after each leg |
| Transition.SingleMoveAnnouncements | cw-model/src/main/java/uk/ac/bris/cs/scotlandyard/model/ScotlandYardModel.java:278-292 | for Mr X's single move, spectator i hears round `r + 1 - i` and then the move with its ticket; the first spectator sees the location the engine now discloses |
| Transition.FirstMoveReadsBeforeSchedule | cw-model/src/main/java/uk/ac/bris/cs/scotlandyard/model/NotifySpectators.java:42-50 | with two or more spectators, every single move offered to Mr X on his first move hands the notifier fewer rounds played than spectators, so the schedule is read below index 0 |
| Transition.OfferedPlaysReadOutsideSchedule | cw-model/src/main/java/uk/ac/bris/cs/scotlandyard/model/ScotlandYardModel.java:178-205 | in a concrete game, a first-move taxi is offered and with two spectators reads before the schedule; a double move from the last-but-one round is offered and with a spectator is announced for the round after the last, though it reads nothing out of range unwatched |
| Transition.AltLeaksHiddenDestination | cw-model/src/main/java/uk/ac/bris/cs/scotlandyard/model/NotifySpectators.java:42-54 | on a hidden round following a reveal round, the first spectator sees the last disclosed location but the second sees Mr X's true destination; on a reveal round both see the true move |
| Engine.WithoutSplits | cw-model/src/main/java/uk/ac/bris/cs/scotlandyard/model/ScotlandYardModel.java:135-139 | removing a present spectator deletes exactly its first occurrence |
| Engine.WithoutKeepsOthers | cw-model/src/main/java/uk/ac/bris/cs/scotlandyard/model/ScotlandYardModel.java:135-139 | in a duplicate-free list the removed spectator is gone, every other one stays, and no duplicate appears |
| Engine.ScotlandYardModel.constructor | cw-model/src/main/java/uk/ac/bris/cs/scotlandyard/model/ScotlandYardModel.java:46-123 | given an accepted configuration: the players are built from it in order; the game starts unstarted with Mr X to move, no spectators and nothing offered |
| Engine.ScotlandYardModel.Create | cw-model/src/main/java/uk/ac/bris/cs/scotlandyard/model/ScotlandYardModel.java:46-123 | refuses exactly the configurations the checks reject, with the first failing check's reason; otherwise builds a valid, unstarted game over the given rounds and map: the players in configuration order, round NOT_STARTED, Mr X to move, the rotation not finished, nothing revealed or offered, no spectators and no events |
| Engine.ScotlandYardModel.RegisterSpectator | cw-model/src/main/java/uk/ac/bris/cs/scotlandyard/model/ScotlandYardModel.java:129-132 | refused exactly when already registered; otherwise appended; nothing else changes |
| Engine.ScotlandYardModel.UnregisterSpectator | cw-model/src/main/java/uk/ac/bris/cs/scotlandyard/model/ScotlandYardModel.java:135-139 | refused exactly when not registered; otherwise removes that spectator, keeps the others in order, and nothing else changes |
| Engine.ScotlandYardModel.CurrentPlayer | cw-model/src/main/java/uk/ac/bris/cs/scotlandyard/model/ScotlandYardModel.java:435-437 | the colour of the player to move; it is Mr X's exactly at the start of a rotation |
| Engine.ScotlandYardModel.IsGameOver | cw-model/src/main/java/uk/ac/bris/cs/scotlandyard/model/ScotlandYardModel.java:430-432 | true exactly when the win rules name a winner |
| Engine.ScotlandYardModel.GetWinningPlayers | cw-model/src/main/java/uk/ac/bris/cs/scotlandyard/model/ScotlandYardModel.java:356-367 | the winner set of the current outcome, non-empty exactly when the game is over |
| Engine.ScotlandYardModel.GetPlayerLocation | cw-model/src/main/java/uk/ac/bris/cs/scotlandyard/model/ScotlandYardModel.java:371-379 | Black gets the last revealed location; another colour gets its player's true location, or nothing when no player has it |
| Engine.ScotlandYardModel.GetPlayerTickets | cw-model/src/main/java/uk/ac/bris/cs/scotlandyard/model/ScotlandYardModel.java:382-389 | the count of that ticket for the player with the colour, or nothing when there is none |
| Engine.ScotlandYardModel.GetPlayers | cw-model/src/main/java/uk/ac/bris/cs/scotlandyard/model/ScotlandYardModel.java:347-353 | the colours in roster order, Black first |
| Engine.ScotlandYardModel.StartRotate | cw-model/src/main/java/uk/ac/bris/cs/scotlandyard/model/ScotlandYardModel.java:227-243 | refused, with nothing changed, exactly when the game is won; otherwise the current player is prompted at its location with exactly its valid moves |
| Engine.ScotlandYardModel.NotifyRotationEnd | cw-model/src/main/java/uk/ac/bris/cs/scotlandyard/model/ScotlandYardModel.java:338 | one rotation-complete event per spectator |
| Engine.ScotlandYardModel.PlayTicketMove | cw-model/src/main/java/uk/ac/bris/cs/scotlandyard/model/ScotlandYardModel.java:278-292 | players, round, revealed location and events become those the transition specifies for a single move |
| Engine.ScotlandYardModel.PlayDoubleMove | cw-model/src/main/java/uk/ac/bris/cs/scotlandyard/model/ScotlandYardModel.java:295-320 | the same for a double move |
| Engine.ScotlandYardModel.DoubleMoveSteps | cw-model/src/main/java/uk/ac/bris/cs/scotlandyard/model/ScotlandYardModel.java:295-320 | the source's step sequence (DOUBLE, leg one, announce, leg two, announce) produces the specified player, round, revealed location and events |
| Engine.ScotlandYardModel.PlayMove | cw-model/src/main/java/uk/ac/bris/cs/scotlandyard/model/ScotlandYardModel.java:261-329 | dispatches on the kind of move; the new state is the specified transition |
| Engine.ScotlandYardModel.AdvanceTurn | cw-model/src/main/java/uk/ac/bris/cs/scotlandyard/model/ScotlandYardModel.java:252-257 | the turn passes to the next player, wrapping to Mr X, which marks the rotation finished |
| Engine.ScotlandYardModel.EndTurn | cw-model/src/main/java/uk/ac/bris/cs/scotlandyard/model/ScotlandYardModel.java:331-338 | the next player's moves are computed; the outcome prompts that player mid-rotation, otherwise reports game over to every spectator with the winners, or rotation complete |
| Engine.ScotlandYardModel.Accept | cw-model/src/main/java/uk/ac/bris/cs/scotlandyard/model/ScotlandYardModel.java:247-339 | a move not on offer is rejected with nothing changed; otherwise the turn advances, the players, round and revealed location follow the transition, the move's announcements are appended to the trace, the next offer is computed, and the turn ends as above; the invariant is kept |

## Left out

- The graph library is not part of this model. The map is a finite map from node to its outgoing edges, in a fixed order. A node the map does not list has no edges. "Empty map" means no nodes.
- The callback that asks a player for a move (`Player.makeMove`) and the spectator callbacks are foreign code. They are replaced by the `Outcome`/`Prompt` values and the `events` trace. The engine's re-entrant call chain (prompt, then `accept`, then prompt) becomes successive calls to `Accept`. The view argument passed to callbacks is dropped.
- `ScotlandYardPlayer`, `PlayerConfiguration` and `Ticket` are not part of this model. Their behaviour is taken from how the engine uses them:
  - `hasTickets(t)` means at least one, and `hasTickets(t, n)` at least n;
  - a missing ticket kind counts as zero;
  - a ferry edge needs a SECRET ticket.
- Players are values in a sequence, not shared objects. The identity test `detective != player` is a comparison of roster indices, which is the same test given unique colours.
- Spectators are identified by a natural number. Their equality is what `contains`/`remove` use.
- Java's 32-bit `int` overflow of the round counter and of the ticket sum is not modelled. Counts and rounds are unbounded integers.
- Null checks (`requireNonNull`) and the unmodifiable wrappers returned by getters have no counterpart.
- `getSpectators`, `getRounds`, `getGraph` and `getCurrentRound` only return a field. They are the class's fields and have no separate member.
- Exceptions become result values:
  - `IllegalArgumentException` becomes `Refused`, `false` or `Rejected`;
  - `IllegalStateException` in `startRotate` becomes `None`.
- Before the first `startRotate`, `validMoves` is `null` in the source, and `accept` would throw `NullPointerException`. Here the offer starts empty, so such a move is rejected.
- Engine.ScotlandYardModel.Accept: a precondition excludes the schedule reads that would throw `IndexOutOfBoundsException`. These are the reads below index 0 on Mr X's ticket move with more spectators than rounds played, and the read past the end on a double move from the last-but-one round with a spectator. The partial state change such an exception leaves behind is not modelled.
- Engine.ScotlandYardModel.constructor: requires a configuration the checks accept. The refusal path is `Create`, which runs the checks first.
- Transition.TicketFlow: stated for double moves only when played by Mr X, the only player ever offered one.
- Transition.SingleMoveAnnouncements: states the shown move's ticket for every spectator but its destination only for the first. Later spectators are judged against earlier schedule entries.
- Roster.FindPlayer: requires that the colour is present. The source would run past the end of the list otherwise, and none of its callers asks for an absent colour.
- The round counter's initial value `NOT_STARTED` is taken to be 0 (`Types.NotStarted`). Its definition is not part of this model. 0 is the only value for which Mr X's first move reads the first schedule entry.
- Moves are compared by value, that is by colour, tickets and destinations. This is how the offered set is searched in `accept` and how the generators collect moves. The move classes' `equals` and `hashCode` are not part of this model.
