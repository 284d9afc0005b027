/**
 * The effect of one accepted move on the game state, as functions of the
 * state before it: the roster, the round counter, the location disclosed
 * for Mr X and the callbacks the spectators receive.  The engine's
 * `Accept` is specified by these, and the lemmas below say what they mean.
 */
module Transition {
  import opened Types
  import opened Roster
  import opened Notify
  import opened Outcomes
  import opened Moves

  /** The player record after spending ticket t and moving to destination. */
  function Moved(player: Player, t: Ticket, destination: int): Player
  {
    Player(player.colour, destination, RemoveTicket(player.tickets, t))
  }

  /**
   * The roster after player p makes the move: the mover spends its tickets
   * and moves; a detective's spent ticket goes to Mr X (the first player).
   */
  function PlayersAfter(players: seq<Player>, p: nat, move: Move): (after: seq<Player>)
    requires p < |players|
    ensures |after| == |players|
    ensures forall k :: 0 <= k < |players| ==> after[k].colour == players[k].colour
  {
    match move
    case Single(tm) =>
      var moved := players[p := Moved(players[p], tm.ticket, tm.destination)];
      if IsMrX(players[p].colour) then moved
      else moved[0 := Player(moved[0].colour, moved[0].location, AddTicket(moved[0].tickets, tm.ticket))]
    case Double(dm) => players[p := DoubleMoved(players[p], dm)]
    case Pass(_) => players
  }

  /** The mover's record after a double move: the DOUBLE ticket and both legs' tickets spent, at the final destination. */
  function DoubleMoved(player: Player, dm: DoubleMove): Player
  {
    var spentDouble := Player(player.colour, player.location, RemoveTicket(player.tickets, Ticket.Double));
    Moved(Moved(spentDouble, dm.firstTicket, dm.firstDestination), dm.secondTicket, dm.secondDestination)
  }

  /** The round counter after the move: Mr X's ticket move plays one round, a double move two. */
  function RoundAfter(round: int, move: Move): int
  {
    match move
    case Single(tm) => if IsMrX(tm.colour) then round + 1 else round
    case Double(_) => round + 2
    case Pass(_) => round
  }

  /**
   * Every entry of `rounds` the engine and the notifiers read while playing
   * the move exists.  For Mr X's ticket move this includes the reads of the
   * per-spectator decrement, which reach below round 0 once there are more
   * spectators than rounds played counting this move; for a double move the read of the round
   * after the second leg, which runs past the end when the move starts in
   * the last-but-one round and someone is watching.
   */
  predicate ScheduleReadsInRange(rounds: seq<bool>, round: int, spectatorCount: nat, move: Move)
  {
    match move
    case Single(tm) => IsMrX(tm.colour) ==> 0 <= round < |rounds| && spectatorCount <= round + 1
    case Double(_) => 0 <= round && round + 1 < |rounds| && (spectatorCount > 0 ==> round + 2 < |rounds|)
    case Pass(_) => true
  }

  /** The location disclosed for Mr X after the move: each leg played on a reveal round discloses its destination. */
  function RevealedAfter(rounds: seq<bool>, round: int, revealed: int, move: Move): int
    requires ScheduleReadsInRange(rounds, round, 0, move)
  {
    match move
    case Single(tm) => if IsMrX(tm.colour) then Disclose(revealed, rounds[round], tm.destination) else revealed
    case Double(dm) =>
      Disclose(Disclose(revealed, rounds[round], dm.firstDestination), rounds[round + 1], dm.secondDestination)
    case Pass(_) => revealed
  }

  /** The form of a double move the spectators are shown: the move itself when nobody watches. */
  function ShownDouble(spectators: seq<Spectator>, rounds: seq<bool>, round: int, revealed: int, dm: DoubleMove): DoubleMove
    requires |spectators| > 0 ==> 0 <= round && round + 1 < |rounds|
  {
    if |spectators| == 0 then dm else Represent(dm, rounds[round], rounds[round + 1], revealed)
  }

  /**
   * The callbacks delivered while the move is played, in order: the Alt
   * notifier for a ticket move; for a double move the double, then its
   * first leg with the round it starts, then its second leg; the pass.
   */
  function MoveEvents(spectators: seq<Spectator>, rounds: seq<bool>, round: int, revealed: int, move: Move): seq<Event>
    requires ScheduleReadsInRange(rounds, round, |spectators|, move)
  {
    match move
    case Single(tm) =>
      AltEvents(spectators, tm, RoundAfter(round, move), rounds, RevealedAfter(rounds, round, revealed, move))
    case Double(dm) =>
      var shown := ShownDouble(spectators, rounds, round, revealed, dm);
      MoveThenRoundEach(spectators, Move.Double(shown), round)
        + WithRoundEvents(spectators, shown.FirstMove(), round + 1, rounds, shown.firstDestination)
        + TicketEvents(spectators, shown.SecondMove(), round + 2, rounds, shown.secondDestination)
    case Pass(_) => MoveMadeEach(spectators, move)
  }

  // ---------------------------------------------------------------------------
  // What a move does to the roster

  /** A move keeps the roster invariant. */
  lemma PlayersAfterKeepsRoster(players: seq<Player>, p: nat, move: Move)
    requires RosterOk(players) && p < |players|
    requires move.Colour() == players[p].colour
    ensures RosterOk(PlayersAfter(players, p, move))
  {
    var after := PlayersAfter(players, p, move);
    forall i | 0 <= i < |after|
      ensures HasAllKinds(after[i].tickets)
    {
    }
    forall i | 1 <= i < |after|
      ensures Count(after[i].tickets, Ticket.Double) <= 0 && Count(after[i].tickets, Ticket.Secret) <= 0
    {
      assert Count(after[i].tickets, Ticket.Double) <= Count(players[i].tickets, Ticket.Double);
      assert Count(after[i].tickets, Ticket.Secret) <= Count(players[i].tickets, Ticket.Secret);
    }
  }

  /**
   * A ticket move: the mover spends one ticket of the move's kind and stands
   * on the destination; when the mover is a detective, Mr X gains one ticket
   * of that kind and stays put; every other player is untouched.
   */
  lemma SingleMoveEffect(players: seq<Player>, p: nat, tm: TicketMove)
    requires RosterOk(players) && p < |players|
    requires tm.colour == players[p].colour
    ensures var after := PlayersAfter(players, p, Single(tm));
      && after[p].location == tm.destination
      && Count(after[p].tickets, tm.ticket) == Count(players[p].tickets, tm.ticket) - 1
      && (forall u :: u != tm.ticket ==> Count(after[p].tickets, u) == Count(players[p].tickets, u))
      && (p != 0 ==>
            && after[0].location == players[0].location
            && Count(after[0].tickets, tm.ticket) == Count(players[0].tickets, tm.ticket) + 1
            && (forall u :: u != tm.ticket ==> Count(after[0].tickets, u) == Count(players[0].tickets, u)))
      && (forall k :: 0 < k < |players| && k != p ==> after[k] == players[k])
  {
    MrXOnlyFirst(players, p);
  }

  /**
   * A double move: Mr X spends a DOUBLE ticket and one ticket per leg, and
   * ends on the second leg's destination; nobody else changes.
   */
  lemma DoubleMoveEffect(players: seq<Player>, dm: DoubleMove)
    requires RosterOk(players)
    ensures var after := PlayersAfter(players, 0, Move.Double(dm));
      && after[0].location == dm.FinalDestination()
      && (forall u :: Count(after[0].tickets, u) == Count(players[0].tickets, u)
                        - (if u == Ticket.Double then 1 else 0)
                        - (if u == dm.firstTicket then 1 else 0)
                        - (if u == dm.secondTicket then 1 else 0))
      && TicketTotal(after[0].tickets) == TicketTotal(players[0].tickets) - 3
      && (forall k :: 0 < k < |players| ==> after[k] == players[k])
  {
  }

  /** A pass changes no player. */
  lemma PassMoveEffect(players: seq<Player>, p: nat, c: Colour)
    requires p < |players|
    ensures PlayersAfter(players, p, Pass(c)) == players
  {
  }

  /** Replacing one player changes the detectives' ticket sum by that player's change, if a detective. */
  lemma {:induction false} DetectiveTicketsUpdate(players: seq<Player>, p: nat, q: Player, n: nat)
    requires p < |players| && n <= |players|
    requires q.colour == players[p].colour
    ensures DetectiveTickets(players[p := q], n)
            == DetectiveTickets(players, n)
               + (if p < n && IsDetective(q.colour) then TicketTotal(q.tickets) - TicketTotal(players[p].tickets) else 0)
  {
    if n > 0 {
      DetectiveTicketsUpdate(players, p, q, n - 1);
    }
  }

  /**
   * Ticket flow: a detective's ticket move moves one ticket from the
   * detectives to Mr X; Mr X's ticket move costs him one ticket and his
   * double move three; a pass costs nothing.  No move ever adds to the
   * detectives' tickets, so they can move only finitely often.
   */
  lemma TicketFlow(players: seq<Player>, p: nat, move: Move)
    requires RosterOk(players) && p < |players|
    requires move.Colour() == players[p].colour
    requires move.Double? ==> IsMrX(move.Colour())
    ensures var after := PlayersAfter(players, p, move);
      && DetectiveTickets(after, |after|)
         == DetectiveTickets(players, |players|) - (if move.Single? && p != 0 then 1 else 0)
      && TicketTotal(after[0].tickets)
         == TicketTotal(players[0].tickets)
            + (match move
               case Single(_) => if p != 0 then 1 else -1
               case Double(_) => -3
               case Pass(_) => 0)
  {
    MrXOnlyFirst(players, p);
    var n := |players|;
    match move
    case Single(tm) =>
      var moved := players[p := Moved(players[p], tm.ticket, tm.destination)];
      DetectiveTicketsUpdate(players, p, moved[p], n);
      if p != 0 {
        var gained := Player(moved[0].colour, moved[0].location, AddTicket(moved[0].tickets, tm.ticket));
        DetectiveTicketsUpdate(moved, 0, gained, n);
      }
    case Double(dm) =>
      var after := PlayersAfter(players, p, move);
      DetectiveTicketsUpdate(players, p, after[p], n);
      assert players[p := after[p]] == after;
    case Pass(_) =>
  }

  // ---------------------------------------------------------------------------
  // What a move discloses

  /**
   * The disclosed location follows Mr X's true position exactly on reveal
   * rounds: after a ticket move or a double move whose last leg is played
   * on a reveal round it is his new location; after a double move revealing
   * only its first leg it is that leg's destination; after moves on hidden
   * rounds only, and after any detective move, it is unchanged.
   */
  lemma RevealTracksTruth(players: seq<Player>, p: nat, rounds: seq<bool>, round: int, revealed: int, move: Move)
    requires RosterOk(players) && p < |players|
    requires move.Colour() == players[p].colour
    requires ScheduleReadsInRange(rounds, round, 0, move)
    ensures var after := PlayersAfter(players, p, move);
            var disclosed := RevealedAfter(rounds, round, revealed, move);
      && (move.Single? && p == 0 && rounds[round] ==> disclosed == after[0].location)
      && (move.Single? && p == 0 && !rounds[round] ==> disclosed == revealed)
      && (move.Double? && rounds[round + 1] ==> disclosed == after[p].location)
      && (move.Double? && rounds[round] && !rounds[round + 1] ==> disclosed == move.doubleMove.firstDestination)
      && (move.Double? && !rounds[round] && !rounds[round + 1] ==> disclosed == revealed)
      && (move.Single? && p != 0 ==> disclosed == revealed)
      && (move.Pass? ==> disclosed == revealed)
  {
    MrXOnlyFirst(players, p);
  }

  /**
   * Spectators watching a double move are shown, as its final destination,
   * exactly the location the engine discloses afterwards, and as its first
   * destination what it discloses after the first leg.
   */
  lemma ShownDoubleMatchesDisclosed(spectators: seq<Spectator>, rounds: seq<bool>, round: int, revealed: int,
                                    dm: DoubleMove)
    requires |spectators| > 0
    requires ScheduleReadsInRange(rounds, round, |spectators|, Move.Double(dm))
    ensures var shown := ShownDouble(spectators, rounds, round, revealed, dm);
      && shown.secondDestination == RevealedAfter(rounds, round, revealed, Move.Double(dm))
      && shown.firstDestination == Disclose(revealed, rounds[round], dm.firstDestination)
  {
    RepresentDisclosesNoMore(dm, rounds[round], rounds[round + 1], revealed);
  }

  /**
   * On Mr X's ticket move the first spectator is told that the new round
   * started and is then shown the move with the location the engine now
   * discloses; spectator i is told round `round + 1 - i` instead.
   */
  lemma SingleMoveAnnouncements(spectators: seq<Spectator>, rounds: seq<bool>, round: int, revealed: int,
                                tm: TicketMove, i: nat)
    requires IsMrX(tm.colour) && i < |spectators|
    requires ScheduleReadsInRange(rounds, round, |spectators|, Single(tm))
    ensures var events := MoveEvents(spectators, rounds, round, revealed, Single(tm));
      && |events| == 2 * |spectators|
      && events[2 * i] == RoundStarted(spectators[i], round + 1 - i)
      && events[2 * i + 1].MoveMade? && events[2 * i + 1].move.Single?
      && events[2 * i + 1].move.ticketMove.ticket == tm.ticket
      && (i == 0 ==> events[1] == MoveMade(spectators[0],
                       Single(TicketMove(tm.colour, tm.ticket, RevealedAfter(rounds, round, revealed, Single(tm))))))
  {
    var disclosed := RevealedAfter(rounds, round, revealed, Single(tm));
    AltEventsAt(spectators, tm, round + 1, rounds, disclosed, i);
  }

  /**
   * Mr X's first move watched by two or more spectators reads before the
   * start of the schedule: whatever single move he is offered, the Alt
   * notifier is handed fewer rounds played than there are spectators,
   * which its own precondition rules out.
   */
  lemma FirstMoveReadsBeforeSchedule(rounds: seq<bool>, graph: Graph, players: seq<Player>,
                                     spectators: seq<Spectator>, tm: TicketMove)
    requires RosterOk(players) && |spectators| >= 2
    requires Single(tm) in ValidMoves(rounds, graph, players, NotStarted, 0)
    ensures IsMrX(tm.colour) && RoundAfter(NotStarted, Single(tm)) < |spectators|
    ensures !ScheduleReadsInRange(rounds, NotStarted, |spectators|, Single(tm))
  {
    ValidMovesOwnColour(rounds, graph, players, NotStarted, 0, Single(tm));
  }

  /**
   * Both out-of-range reads happen in a small game: Mr X on node 1 with two
   * TAXI tickets and a DOUBLE, taxi edges 1 to 2 and 2 to 3, one detective
   * elsewhere, three rounds.  His first-move taxi to 2 is offered and, with
   * two spectators, reads before the schedule; in round 1, the last but
   * one, the double move to 2 and 3 is offered, and with a spectator the
   * announcement of its second leg is made for round 3, past the schedule,
   * although nothing is read out of range when nobody watches.
   */
  lemma OfferedPlaysReadOutsideSchedule(rounds: seq<bool>, graph: Graph, players: seq<Player>)
    requires rounds == [false, false, true]
    requires graph == map[1 := [Edge(2, Transport.Taxi)], 2 := [Edge(3, Transport.Taxi)]]
    requires players == [Player(Black, 1, map[Ticket.Taxi := 2, Ticket.Bus := 0, Ticket.Underground := 0,
                                              Ticket.Double := 1, Ticket.Secret := 0]),
                         Player(Blue, 9, map[Ticket.Taxi := 1, Ticket.Bus := 0, Ticket.Underground := 0,
                                             Ticket.Double := 0, Ticket.Secret := 0])]
    ensures RosterOk(players)
    ensures var first := TicketMove(Black, Ticket.Taxi, 2);
      && Single(first) in ValidMoves(rounds, graph, players, NotStarted, 0)
      && !ScheduleReadsInRange(rounds, NotStarted, 2, Single(first))
    ensures var dm := DoubleMove(Black, Ticket.Taxi, 2, Ticket.Taxi, 3);
      && Move.Double(dm) in ValidMoves(rounds, graph, players, |rounds| - 2, 0)
      && RoundAfter(|rounds| - 2, Move.Double(dm)) == |rounds|
      && !ScheduleReadsInRange(rounds, |rounds| - 2, 1, Move.Double(dm))
      && ScheduleReadsInRange(rounds, |rounds| - 2, 0, Move.Double(dm))
  {
    var first := TicketMove(Black, Ticket.Taxi, 2);
    var second := TicketMove(Black, Ticket.Taxi, 3);
    assert OutEdges(graph, 1)[0] == Edge(2, Transport.Taxi);
    assert OutEdges(graph, 2)[0] == Edge(3, Transport.Taxi);
    TicketMovesLegal(players, graph, 0, 1, first);
    TicketMovesLegal(players, graph, 0, 2, second);
    var singles := TicketMoves(players, graph, 0, 1);
    assert first in singles;
    var dm := DoubleMove(Black, Ticket.Taxi, 2, Ticket.Taxi, 3);
    DoubleMovesLegal(players, graph, 0, 1, |rounds| - 2, rounds, dm);
    assert dm in DoubleMoves(players, graph, 0, |rounds| - 2, rounds, singles);
  }

  /**
   * The per-spectator decrement breaks concealment.  When Mr X moves in a
   * hidden round r right after a reveal round, the first spectator is shown
   * the last disclosed location, but the second is judged against round
   * r - 1 and is shown his true destination.  On a reveal round nothing is
   * lost the other way: the location handed on is already the true one, so
   * every spectator sees the move as made.
   */
  lemma AltLeaksHiddenDestination(tm: TicketMove, revealed: int)
    requires IsMrX(tm.colour)
    ensures var events := MoveEvents([1, 2], [true, false, false], 1, revealed, Single(tm));
      && |events| == 4
      && events[1] == MoveMade(1, Single(TicketMove(tm.colour, tm.ticket, revealed)))
      && events[3] == MoveMade(2, Single(tm))
    ensures var events := MoveEvents([1, 2], [false, true, false], 1, revealed, Single(tm));
      && |events| == 4
      && events[1] == MoveMade(1, Single(tm))
      && events[3] == MoveMade(2, Single(tm))
  {
    AltEventsAt([1, 2], tm, 2, [true, false, false], revealed, 0);
    AltEventsAt([1, 2], tm, 2, [true, false, false], revealed, 1);
    AltEventsAt([1, 2], tm, 2, [false, true, false], tm.destination, 0);
    AltEventsAt([1, 2], tm, 2, [false, true, false], tm.destination, 1);
  }
}
