/**
 * The game object: its state, the spectator list, the turn rotation and
 * the queries the views ask.  Calls into the players are replaced by the
 * outcome `Accept` and `StartRotate` return (whose turn is next and what
 * they are offered), and the spectators' callbacks by the `events` trace.
 */
module Engine {
  import opened Types
  import opened Roster
  import opened Notify
  import opened Moves
  import opened Outcomes
  import opened Setup
  import opened Transition

  /** The request the game hands to the player whose turn it is. */
  datatype Prompt = Prompt(colour: Colour, location: int, moves: set<Move>)

  /** How a call to `Accept` ends. */
  datatype Outcome =
    | Rejected                        // the move was not on offer
    | Prompted(prompt: Prompt)        // the rotation goes on with the next player
    | RotationEnded                   // every player has moved and nobody has won
    | GameEnded(winners: set<Colour>) // every player has moved and the game is won

  /** The result of creating a game: the game, or the first configuration check that failed. */
  datatype Creation = Created(game: ScotlandYardModel) | Refused(error: ConfigError)

  /** `spectators.remove(s)`: the list without the first occurrence of s. */
  function Without(spectators: seq<Spectator>, s: Spectator): seq<Spectator>
  {
    if spectators == [] then []
    else if spectators[0] == s then spectators[1..]
    else [spectators[0]] + Without(spectators[1..], s)
  }

  /** The position of the first occurrence of s. */
  function FirstIndex(spectators: seq<Spectator>, s: Spectator): (i: nat)
    requires s in spectators
    ensures i < |spectators| && spectators[i] == s
    ensures forall k :: 0 <= k < i ==> spectators[k] != s
  {
    if spectators[0] == s then 0 else 1 + FirstIndex(spectators[1..], s)
  }

  /** Removing a spectator that is not listed changes nothing. */
  lemma {:induction false} WithoutAbsent(spectators: seq<Spectator>, s: Spectator)
    requires s !in spectators
    ensures Without(spectators, s) == spectators
  {
    if spectators != [] {
      WithoutAbsent(spectators[1..], s);
      assert spectators == [spectators[0]] + spectators[1..];
    }
  }

  /** Removing a listed spectator cuts out its first occurrence and keeps the order of the rest. */
  lemma {:induction false} WithoutSplits(spectators: seq<Spectator>, s: Spectator)
    requires s in spectators
    ensures Without(spectators, s) == spectators[..FirstIndex(spectators, s)] + spectators[FirstIndex(spectators, s) + 1..]
  {
    if spectators[0] != s {
      var tail := spectators[1..];
      assert s in tail;
      WithoutSplits(tail, s);
      var i := FirstIndex(tail, s);
      assert FirstIndex(spectators, s) == i + 1;
      assert Without(spectators, s) == [spectators[0]] + (tail[..i] + tail[i + 1..]);
      assert spectators[..i + 1] == [spectators[0]] + tail[..i];
      assert spectators[i + 2..] == tail[i + 1..];
    }
  }

  /** Removing a spectator from a list without repeats leaves every other spectator, still without repeats. */
  lemma {:induction false} WithoutKeepsOthers(spectators: seq<Spectator>, s: Spectator)
    requires forall i, j :: 0 <= i < j < |spectators| ==> spectators[i] != spectators[j]
    ensures var r := Without(spectators, s);
      && s !in r
      && (forall t :: t != s ==> (t in r <==> t in spectators))
      && (forall i, j :: 0 <= i < j < |r| ==> r[i] != r[j])
  {
    if spectators != [] {
      var tail := spectators[1..];
      WithoutKeepsOthers(tail, s);
      if spectators[0] == s {
        assert s !in tail by {
          forall k | 0 <= k < |tail|
            ensures tail[k] != s
          {
            assert spectators[0] != spectators[k + 1];
          }
        }
      } else {
        var r := [spectators[0]] + Without(tail, s);
        assert spectators[0] !in Without(tail, s) by {
          forall k | 0 <= k < |tail|
            ensures tail[k] != spectators[0]
          {
            assert spectators[0] != spectators[k + 1];
          }
        }
        forall t | t != s
          ensures t in r <==> t in spectators
        {
          assert spectators == [spectators[0]] + tail;
        }
      }
    }
  }

  /** The turn order wraps from the last player back to the first. */
  lemma NextIndex(i: nat, n: nat)
    requires i < n
    ensures (i + 1) % n == if i + 1 == n then 0 else i + 1
  {
  }

  class ScotlandYardModel {
    const rounds: seq<bool>
    const graph: Graph
    var players: seq<Player>
    var currentRound: int
    var roundFinished: bool
    var playerIndex: nat
    var revealedLocation: int
    var validMoves: set<Move>
    var spectators: seq<Spectator>
    /** Every callback delivered to a spectator so far, in delivery order. */
    var events: seq<Event>

    /**
     * The game invariant apart from the offer: a non-empty schedule and
     * map, a valid roster, a current player in range, a round counter
     * within the schedule, a finished rotation only with Mr X to move, and
     * no spectator twice.
     */
    ghost predicate Consistent()
      reads this
    {
      && |rounds| > 0 && |graph| > 0
      && RosterOk(players)
      && playerIndex < |players|
      && 0 <= currentRound <= |rounds|
      && (roundFinished ==> playerIndex == 0)
      && (forall i, j :: 0 <= i < j < |spectators| ==> spectators[i] != spectators[j])
    }

    /** The game invariant: consistent, and the offer (once made) is the current player's valid moves. */
    ghost predicate Valid()
      reads this
    {
      && Consistent()
      && (validMoves == {} || validMoves == ValidMoves(rounds, graph, players, currentRound, playerIndex))
    }

    /** The game set up from configurations that pass every check: Mr X first, detectives in argument order. */
    constructor(rounds: seq<bool>, graph: Graph, mrX: PlayerConfiguration,
                firstDetective: PlayerConfiguration, rest: seq<PlayerConfiguration>)
      requires ConfigCheck(rounds, graph, Configurations(mrX, firstDetective, rest)) == None
      ensures Valid()
      ensures this.rounds == rounds && this.graph == graph
      ensures players == PlayersOf(Configurations(mrX, firstDetective, rest))
      ensures currentRound == NotStarted && !roundFinished && playerIndex == 0 && revealedLocation == 0
      ensures validMoves == {} && spectators == [] && events == []
    {
      var configurations := Configurations(mrX, firstDetective, rest);
      ValidConfigMakesRoster(rounds, graph, configurations);
      var built := BuildPlayers(configurations);
      this.rounds := rounds;
      this.graph := graph;
      players := built;
      currentRound := NotStarted;
      roundFinished := false;
      playerIndex := 0;
      revealedLocation := 0;
      validMoves := {};
      spectators := [];
      events := [];
    }

    /** The constructor with its argument checks: refuses with the first failing check. */
    static method Create(rounds: seq<bool>, graph: Graph, mrX: PlayerConfiguration,
                         firstDetective: PlayerConfiguration, rest: seq<PlayerConfiguration>)
      returns (r: Creation)
      ensures r.Refused? <==> ConfigCheck(rounds, graph, Configurations(mrX, firstDetective, rest)).Some?
      ensures r.Refused? ==> Some(r.error) == ConfigCheck(rounds, graph, Configurations(mrX, firstDetective, rest))
      ensures r.Created? ==> fresh(r.game) && r.game.Valid() && r.game.rounds == rounds && r.game.graph == graph
                             && r.game.players == PlayersOf(Configurations(mrX, firstDetective, rest))
                             && r.game.currentRound == NotStarted && !r.game.roundFinished
                             && r.game.playerIndex == 0 && r.game.revealedLocation == 0
                             && r.game.validMoves == {} && r.game.spectators == [] && r.game.events == []
    {
      var err := Validate(rounds, graph, mrX, firstDetective, rest);
      if err.Some? {
        return Refused(err.value);
      }
      var game := new ScotlandYardModel(rounds, graph, mrX, firstDetective, rest);
      return Created(game);
    }

    /** `registerSpectator`: refuses a spectator already registered, otherwise appends it. */
    method RegisterSpectator(s: Spectator) returns (ok: bool)
      requires Valid()
      modifies this
      ensures Valid()
      ensures ok <==> s !in old(spectators)
      ensures ok ==> spectators == old(spectators) + [s]
      ensures !ok ==> spectators == old(spectators)
      ensures players == old(players) && currentRound == old(currentRound) && roundFinished == old(roundFinished)
      ensures playerIndex == old(playerIndex) && revealedLocation == old(revealedLocation)
      ensures validMoves == old(validMoves) && events == old(events)
    {
      if s in spectators {
        return false;
      }
      spectators := spectators + [s];
      return true;
    }

    /** `unregisterSpectator`: refuses a spectator not registered, otherwise removes it. */
    method UnregisterSpectator(s: Spectator) returns (ok: bool)
      requires Valid()
      modifies this
      ensures Valid()
      ensures ok <==> s in old(spectators)
      ensures !ok ==> spectators == old(spectators)
      ensures ok ==> spectators == old(spectators)[..FirstIndex(old(spectators), s)]
                                   + old(spectators)[FirstIndex(old(spectators), s) + 1..]
      ensures s !in spectators
      ensures forall t :: t != s ==> (t in spectators <==> t in old(spectators))
      ensures players == old(players) && currentRound == old(currentRound) && roundFinished == old(roundFinished)
      ensures playerIndex == old(playerIndex) && revealedLocation == old(revealedLocation)
      ensures validMoves == old(validMoves) && events == old(events)
    {
      WithoutKeepsOthers(spectators, s);
      if s !in spectators {
        WithoutAbsent(spectators, s);
        return false;
      }
      WithoutSplits(spectators, s);
      spectators := Without(spectators, s);
      return true;
    }

    /** `getCurrentPlayer`: the colour whose turn it is; Mr X's exactly at the start of a rotation. */
    function CurrentPlayer(): (c: Colour)
      reads this
      requires Consistent()
      ensures c == players[playerIndex].colour
      ensures IsMrX(c) <==> playerIndex == 0
    {
      MrXOnlyFirst(players, playerIndex);
      players[playerIndex].colour
    }

    /** `isGameOver`: the win rules name a winner. */
    method IsGameOver() returns (over: bool)
      requires Consistent()
      ensures over <==> WinnerOf(rounds, graph, players, currentRound, roundFinished) != Nobody
    {
      var w := Winners(rounds, graph, players, currentRound, roundFinished);
      over := w == Detectives || w == MrX;
    }

    /** `getWinningPlayers`: every detective, Mr X alone, or nobody, as the win rules decide. */
    method GetWinningPlayers() returns (winners: set<Colour>)
      requires Consistent()
      ensures winners == WinningPlayers(players, WinnerOf(rounds, graph, players, currentRound, roundFinished))
      ensures winners != {} <==> WinnerOf(rounds, graph, players, currentRound, roundFinished) != Nobody
    {
      var w := Winners(rounds, graph, players, currentRound, roundFinished);
      GameOverIffWinners(players, w);
      winners := {};
      if w == Detectives {
        winners := CollectDetectiveColours(players);
      }
      if w == MrX {
        winners := winners + {Black};
      }
    }

    /**
     * `getPlayerLocation`: for Mr X the last disclosed location, never his
     * true one; for a detective its location; nothing for an absent colour.
     */
    method GetPlayerLocation(colour: Colour) returns (r: Option<int>)
      requires Valid()
      ensures colour == Black ==> r == Some(revealedLocation)
      ensures colour != Black ==> (r == None <==> forall k :: 0 <= k < |players| ==> players[k].colour != colour)
      ensures colour != Black ==>
        forall k :: 0 <= k < |players| && players[k].colour == colour ==> r == Some(players[k].location)
    {
      if colour == Black {
        return Some(revealedLocation);
      }
      for i := 0 to |players|
        invariant forall k :: 0 <= k < i ==> players[k].colour != colour
      {
        if players[i].colour == colour {
          forall k | 0 <= k < |players| && players[k].colour == colour
            ensures k == i
          {
            FoundIsUnique(players, colour, i, k);
          }
          return Some(players[i].location);
        }
      }
      return None;
    }

    /** `getPlayerTickets`: the count of a kind held by the player of that colour, if present. */
    method GetPlayerTickets(colour: Colour, ticket: Ticket) returns (r: Option<int>)
      requires Valid()
      ensures r == None <==> forall k :: 0 <= k < |players| ==> players[k].colour != colour
      ensures forall k :: 0 <= k < |players| && players[k].colour == colour ==> r == Some(Count(players[k].tickets, ticket))
    {
      for i := 0 to |players|
        invariant forall k :: 0 <= k < i ==> players[k].colour != colour
      {
        if players[i].colour == colour {
          forall k | 0 <= k < |players| && players[k].colour == colour
            ensures k == i
          {
            FoundIsUnique(players, colour, i, k);
          }
          return Some(Count(players[i].tickets, ticket));
        }
      }
      return None;
    }

    /** `getPlayers`: the colours in turn order, Mr X first. */
    method GetPlayers() returns (colours: seq<Colour>)
      requires Valid()
      ensures |colours| == |players|
      ensures forall k :: 0 <= k < |players| ==> colours[k] == players[k].colour
      ensures colours[0] == Black
    {
      colours := [];
      for i := 0 to |players|
        invariant |colours| == i
        invariant forall k :: 0 <= k < i ==> colours[k] == players[k].colour
      {
        colours := colours + [players[i].colour];
      }
    }

    /**
     * `startRotate`: refused once the game is won; otherwise the current
     * player is offered its valid moves.
     */
    method StartRotate() returns (r: Option<Prompt>)
      requires Valid()
      modifies this
      ensures Valid()
      ensures r == None <==> old(WinnerOf(rounds, graph, players, currentRound, roundFinished)) != Nobody
      ensures r == None ==> unchanged(this)
      ensures r != None ==>
        && validMoves == ValidMoves(rounds, graph, players, currentRound, playerIndex)
        && r == Some(Prompt(players[playerIndex].colour, players[playerIndex].location, validMoves))
      ensures players == old(players) && currentRound == old(currentRound) && roundFinished == old(roundFinished)
      ensures playerIndex == old(playerIndex) && revealedLocation == old(revealedLocation)
      ensures spectators == old(spectators) && events == old(events)
    {
      var over := IsGameOver();
      if over {
        return None;
      }
      var currentPlayer := FindPlayer(players, CurrentPlayer());
      FoundIsUnique(players, CurrentPlayer(), currentPlayer, playerIndex);
      validMoves := GetValidMoves(rounds, graph, players, currentRound, currentPlayer);
      r := Some(Prompt(players[currentPlayer].colour, players[currentPlayer].location, validMoves));
    }

    /** The callbacks of the end of a rotation: game over with the winners, or rotation complete. */
    static method NotifyRotationEnd(spectators: seq<Spectator>) returns (emitted: seq<Event>)
      ensures emitted == RotationCompleteEach(spectators)
    {
      emitted := [];
      for i := 0 to |spectators|
        invariant emitted == RotationCompleteEach(spectators[..i])
      {
        emitted := emitted + [RotationComplete(spectators[i])];
        assert spectators[..i + 1][..i] == spectators[..i];
      }
      assert spectators[..|spectators|] == spectators;
    }

    /** The ticket-move visit: spend, move, advance the round (Mr X) or pay Mr X (detective), notify. */
    method PlayTicketMove(p: nat, tm: TicketMove)
      requires p < |players| && players[p].colour == tm.colour && IsMrX(players[0].colour)
      requires ScheduleReadsInRange(rounds, currentRound, |spectators|, Single(tm))
      modifies this
      ensures spectators == old(spectators)
      ensures players == PlayersAfter(old(players), p, Single(tm))
      ensures currentRound == RoundAfter(old(currentRound), Single(tm))
      ensures revealedLocation == RevealedAfter(rounds, old(currentRound), old(revealedLocation), Single(tm))
      ensures events == old(events) + MoveEvents(spectators, rounds, old(currentRound), old(revealedLocation), Single(tm))
      ensures roundFinished == old(roundFinished) && playerIndex == old(playerIndex) && validMoves == old(validMoves)
    {
      var roster := players;
      var round := currentRound;
      var revealed := revealedLocation;
      var player := Moved(roster[p], tm.ticket, tm.destination);
      roster := roster[p := player];
      if IsMrX(player.colour) {
        if rounds[round] {
          revealed := player.location;
        }
        round := round + 1;
      } else {
        assert roster[0].colour == Black;
        var mrX := FindPlayer(roster, Black);
        roster := roster[mrX := Player(roster[mrX].colour, roster[mrX].location,
                                       AddTicket(roster[mrX].tickets, tm.ticket))];
      }
      var emitted := TicketMoveWithRoundNotifAlt(spectators, tm, round, rounds, revealed);
      players := roster;
      currentRound := round;
      revealedLocation := revealed;
      events := events + emitted;
    }

    /**
     * The double-move visit: spend the DOUBLE ticket, then play each leg;
     * the steps and the callbacks they deliver are `DoubleMoveSteps`.
     */
    method PlayDoubleMove(p: nat, dm: DoubleMove)
      requires p < |players| && players[p].colour == dm.colour
      requires ScheduleReadsInRange(rounds, currentRound, |spectators|, Move.Double(dm))
      modifies this
      ensures spectators == old(spectators)
      ensures players == PlayersAfter(old(players), p, Move.Double(dm))
      ensures currentRound == RoundAfter(old(currentRound), Move.Double(dm))
      ensures revealedLocation == RevealedAfter(rounds, old(currentRound), old(revealedLocation), Move.Double(dm))
      ensures events == old(events) + MoveEvents(spectators, rounds, old(currentRound), old(revealedLocation), Move.Double(dm))
      ensures roundFinished == old(roundFinished) && playerIndex == old(playerIndex) && validMoves == old(validMoves)
    {
      var player, round, revealed, emitted := DoubleMoveSteps(players[p], dm, spectators, rounds, currentRound, revealedLocation);
      players := players[p := player];
      currentRound := round;
      revealedLocation := revealed;
      events := events + emitted;
    }

    /**
     * The steps of the double-move visit in source order, on the mover's
     * record and the round and disclosure counters: spend the DOUBLE
     * ticket, pick and announce the shown form, then play and announce
     * each leg, each on its own round.
     */
    static method DoubleMoveSteps(mover: Player, dm: DoubleMove, spectators: seq<Spectator>, rounds: seq<bool>,
                                  currentRound: int, revealedLocation: int)
      returns (player: Player, round: int, revealed: int, emitted: seq<Event>)
      requires ScheduleReadsInRange(rounds, currentRound, |spectators|, Move.Double(dm))
      ensures player == DoubleMoved(mover, dm)
      ensures round == RoundAfter(currentRound, Move.Double(dm))
      ensures revealed == RevealedAfter(rounds, currentRound, revealedLocation, Move.Double(dm))
      ensures emitted == MoveEvents(spectators, rounds, currentRound, revealedLocation, Move.Double(dm))
    {
      round := currentRound;
      revealed := revealedLocation;
      player := Player(mover.colour, mover.location, RemoveTicket(mover.tickets, Ticket.Double));
      var shownMove, announced := DoubleMoveNotif(spectators, dm, round, rounds, revealed);

      player := Moved(player, dm.firstTicket, dm.firstDestination);
      if rounds[round] {
        revealed := player.location;
      }
      round := round + 1;
      var firstLeg := TicketMoveWithRoundNotif(spectators, shownMove.FirstMove(), round, rounds,
                                               shownMove.FirstMove().destination);

      player := Moved(player, dm.secondTicket, dm.FinalDestination());
      if rounds[round] {
        revealed := player.location;
      }
      round := round + 1;
      var secondLeg := TicketMoveNotif(spectators, shownMove.SecondMove(), round, rounds,
                                       shownMove.SecondMove().destination);
      emitted := announced + firstLeg + secondLeg;
    }

    /**
     * `accept`: refuses a move not on offer.  Otherwise the turn passes to
     * the next player (wrapping to Mr X finishes the rotation), the move is
     * played and announced, the next player's moves are computed, and the
     * next player is prompted, or, at the end of a rotation, the spectators
     * hear that the game is over or that the rotation is complete.
     */
    method Accept(move: Move) returns (outcome: Outcome)
      requires Valid()
      requires move in validMoves ==> ScheduleReadsInRange(rounds, currentRound, |spectators|, move)
      modifies this
      ensures Valid()
      ensures move !in old(validMoves) ==> outcome == Rejected && unchanged(this)
      ensures move in old(validMoves) ==>
        && spectators == old(spectators)
        && playerIndex == (old(playerIndex) + 1) % |players|
        && roundFinished == (playerIndex == 0)
        && players == PlayersAfter(old(players), old(playerIndex), move)
        && currentRound == RoundAfter(old(currentRound), move)
        && revealedLocation == RevealedAfter(rounds, old(currentRound), old(revealedLocation), move)
        && validMoves == ValidMoves(rounds, graph, players, currentRound, playerIndex)
        && TurnEnded(old(events) + MoveEvents(spectators, rounds, old(currentRound), old(revealedLocation), move),
                     outcome)
    {
      if move !in validMoves {
        return Rejected;
      }
      ghost var mover := playerIndex;
      ValidMovesOwnColour(rounds, graph, players, currentRound, playerIndex, move);
      AdvanceTurn();

      var p := FindPlayer(players, move.Colour());
      FoundIsUnique(players, move.Colour(), p, mover);
      PlayersAfterKeepsRoster(players, p, move);
      PlayMove(p, move);
      outcome := EndTurn();
    }

    /** The turn passes to the next player; wrapping round to Mr X finishes the rotation. */
    method AdvanceTurn()
      requires playerIndex < |players|
      modifies this
      ensures players == old(players) && currentRound == old(currentRound) && revealedLocation == old(revealedLocation)
      ensures playerIndex == (old(playerIndex) + 1) % |players|
      ensures roundFinished == (playerIndex == 0)
      ensures validMoves == old(validMoves) && spectators == old(spectators) && events == old(events)
    {
      NextIndex(playerIndex, |players|);
      playerIndex := playerIndex + 1;
      if playerIndex == |players| {
        roundFinished := true;
        playerIndex := 0;
      } else {
        roundFinished := false;
      }
    }

    /**
     * How a turn ends, given the callbacks delivered up to the end of the
     * move: the next player is prompted within a rotation; at its end the
     * spectators hear that the game is over, with the winners, or that the
     * rotation is complete.
     */
    ghost predicate TurnEnded(played: seq<Event>, outcome: Outcome)
      reads this
      requires Consistent()
    {
      var w := WinnerOf(rounds, graph, players, currentRound, roundFinished);
      if !roundFinished then
        && outcome == Prompted(Prompt(players[playerIndex].colour, players[playerIndex].location, validMoves))
        && events == played
      else if w != Nobody then
        && outcome == GameEnded(WinningPlayers(players, w))
        && events == played + GameOverEach(spectators, WinningPlayers(players, w))
      else
        && outcome == RotationEnded
        && events == played + RotationCompleteEach(spectators)
    }

    /** The visitor dispatch of `accept`: plays the move of player p and announces it. */
    method PlayMove(p: nat, move: Move)
      requires p < |players| && players[p].colour == move.Colour() && IsMrX(players[0].colour)
      requires ScheduleReadsInRange(rounds, currentRound, |spectators|, move)
      modifies this
      ensures spectators == old(spectators)
      ensures players == PlayersAfter(old(players), p, move)
      ensures currentRound == RoundAfter(old(currentRound), move)
      ensures revealedLocation == RevealedAfter(rounds, old(currentRound), old(revealedLocation), move)
      ensures events == old(events) + MoveEvents(spectators, rounds, old(currentRound), old(revealedLocation), move)
      ensures roundFinished == old(roundFinished) && playerIndex == old(playerIndex) && validMoves == old(validMoves)
    {
      match move {
        case Single(tm) =>
          PlayTicketMove(p, tm);
        case Double(dm) =>
          PlayDoubleMove(p, dm);
        case Pass(_) =>
          var emitted := PassMoveNotif(spectators, move);
          events := events + emitted;
      }
    }

    /** The end of `accept`: the next player's offer, then the prompt or the end-of-rotation callbacks. */
    method EndTurn() returns (outcome: Outcome)
      requires Consistent()
      modifies this
      ensures Valid()
      ensures validMoves == ValidMoves(rounds, graph, players, currentRound, playerIndex)
      ensures players == old(players) && currentRound == old(currentRound) && roundFinished == old(roundFinished)
      ensures playerIndex == old(playerIndex) && revealedLocation == old(revealedLocation)
      ensures spectators == old(spectators)
      ensures TurnEnded(old(events), outcome)
    {
      var currentPlayer := FindPlayer(players, CurrentPlayer());
      FoundIsUnique(players, CurrentPlayer(), currentPlayer, playerIndex);
      validMoves := GetValidMoves(rounds, graph, players, currentRound, currentPlayer);

      if !roundFinished {
        outcome := Prompted(Prompt(players[currentPlayer].colour, players[currentPlayer].location, validMoves));
      } else {
        var over := IsGameOver();
        if over {
          var winners := GetWinningPlayers();
          var emitted := GameOverNotif(spectators, winners);
          events := events + emitted;
          outcome := GameEnded(winners);
        } else {
          var emitted := NotifyRotationEnd(spectators);
          events := events + emitted;
          outcome := RotationEnded;
        }
      }
    }
  }
}
