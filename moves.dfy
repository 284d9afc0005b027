/**
 * Legal-move generation: the single (ticket) moves along the edges out of a
 * node, the double moves built from two of them, and the set a player is
 * offered on its turn.  The roster `players` and the index `p` of the player
 * asking stand in for the game's player list and the player object.
 */
module Moves {
  import opened Types
  import opened Roster

  /** The edges leaving `location`; a node the map does not list has none. */
  function OutEdges(graph: Graph, location: int): seq<Edge>
  {
    if location in graph then graph[location] else []
  }

  /** Among the first n roster entries, a detective other than player p stands on `destination`. */
  predicate OccupiedAmong(players: seq<Player>, p: nat, destination: int, n: nat)
    requires n <= |players|
  {
    exists k :: 0 <= k < n && k != p && IsDetective(players[k].colour) && players[k].location == destination
  }

  /** Among the first n roster entries there is a detective other than player p. */
  predicate OtherDetectiveAmong(players: seq<Player>, p: nat, n: nat)
    requires n <= |players|
  {
    exists k :: 0 <= k < n && k != p && IsDetective(players[k].colour)
  }

  /** A detective other than player p stands on `destination`. */
  predicate Occupied(players: seq<Player>, p: nat, destination: int)
  {
    OccupiedAmong(players, p, destination, |players|)
  }

  /** The single moves one edge offers player p: by its own ticket and by a secret ticket. */
  function EdgeMoves(players: seq<Player>, p: nat, edge: Edge): set<TicketMove>
    requires p < |players|
  {
    var player := players[p];
    var ticket := FromTransport(edge.transport);
    if Occupied(players, p, edge.destination) then {}
    else
      (if HasTicket(player.tickets, ticket) then {TicketMove(player.colour, ticket, edge.destination)} else {})
      + (if HasTicket(player.tickets, Ticket.Secret) then {TicketMove(player.colour, Ticket.Secret, edge.destination)} else {})
  }

  /** The single moves a sequence of edges offers player p. */
  function MovesAlong(players: seq<Player>, p: nat, edges: seq<Edge>): set<TicketMove>
    requires p < |players|
  {
    if edges == [] then {}
    else MovesAlong(players, p, edges[..|edges| - 1]) + EdgeMoves(players, p, edges[|edges| - 1])
  }

  /** The single moves player p has from `location` (`getTicketMoves`). */
  function TicketMoves(players: seq<Player>, graph: Graph, p: nat, location: int): set<TicketMove>
    requires p < |players|
  {
    MovesAlong(players, p, OutEdges(graph, location))
  }

  /**
   * The rule a single move obeys: it is player p's, it spends a ticket p
   * holds, it follows one of the edges, by that edge's own ticket or by a
   * secret ticket, and no other detective stands on its destination.
   */
  predicate LegalAlong(players: seq<Player>, p: nat, edges: seq<Edge>, m: TicketMove)
    requires p < |players|
  {
    && m.colour == players[p].colour
    && HasTicket(players[p].tickets, m.ticket)
    && !Occupied(players, p, m.destination)
    && exists j :: 0 <= j < |edges| && edges[j].destination == m.destination
                   && (m.ticket == FromTransport(edges[j].transport) || m.ticket == Ticket.Secret)
  }

  lemma {:induction false} MovesAlongLegal(players: seq<Player>, p: nat, edges: seq<Edge>, m: TicketMove)
    requires p < |players|
    ensures m in MovesAlong(players, p, edges) <==> LegalAlong(players, p, edges, m)
  {
    if edges != [] {
      var n := |edges| - 1;
      MovesAlongLegal(players, p, edges[..n], m);
      if LegalAlong(players, p, edges, m) {
        var j :| 0 <= j < |edges| && edges[j].destination == m.destination
                 && (m.ticket == FromTransport(edges[j].transport) || m.ticket == Ticket.Secret);
        if j < n {
          assert edges[..n][j] == edges[j];
        }
      }
      if m in MovesAlong(players, p, edges[..n]) {
        var j :| 0 <= j < n && edges[..n][j].destination == m.destination
                 && (m.ticket == FromTransport(edges[..n][j].transport) || m.ticket == Ticket.Secret);
        assert edges[j] == edges[..n][j];
      }
    }
  }

  /**
   * A single move is offered exactly when it follows an edge out of
   * `location` by the edge's own ticket or a secret ticket, the player holds
   * that ticket, and no other detective occupies the destination.
   */
  lemma TicketMovesLegal(players: seq<Player>, graph: Graph, p: nat, location: int, m: TicketMove)
    requires p < |players|
    ensures m in TicketMoves(players, graph, p, location) <==> LegalAlong(players, p, OutEdges(graph, location), m)
  {
    MovesAlongLegal(players, p, OutEdges(graph, location), m);
  }

  /** Mr X can never step onto a detective. */
  lemma MrXNeverStepsOntoDetective(players: seq<Player>, graph: Graph, location: int, m: TicketMove, k: nat)
    requires RosterOk(players)
    requires m in TicketMoves(players, graph, 0, location)
    requires 1 <= k < |players|
    ensures players[k].location != m.destination
  {
    TicketMovesLegal(players, graph, 0, location, m);
  }

  /** The first and second leg tickets are held: twice over if equal, once each otherwise. */
  predicate LegTicketsHeld(tickets: Tickets, first: Ticket, second: Ticket)
  {
    if first == second then HasTickets(tickets, first, 2)
    else HasTicket(tickets, first) && HasTicket(tickets, second)
  }

  function Combine(colour: Colour, first: TicketMove, second: TicketMove): DoubleMove
  {
    DoubleMove(colour, first.ticket, first.destination, second.ticket, second.destination)
  }

  /** The double moves that start with `first` and continue with one of `seconds`. */
  function DoublesStarting(players: seq<Player>, p: nat, first: TicketMove, seconds: set<TicketMove>): set<DoubleMove>
    requires p < |players|
  {
    set s | s in seconds && LegTicketsHeld(players[p].tickets, first.ticket, s.ticket)
      :: Combine(players[p].colour, first, s)
  }

  /** The double moves with a first leg in `firsts` and a second leg from its destination. */
  function DoublesFrom(players: seq<Player>, graph: Graph, p: nat, firsts: set<TicketMove>): set<DoubleMove>
    requires p < |players|
  {
    set f, s | f in firsts && s in TicketMoves(players, graph, p, f.destination)
                 && LegTicketsHeld(players[p].tickets, f.ticket, s.ticket)
      :: Combine(players[p].colour, f, s)
  }

  /** `getDoubleMoves`: none on the last round or without a DOUBLE ticket. */
  function DoubleMoves(players: seq<Player>, graph: Graph, p: nat, currentRound: int, rounds: seq<bool>,
                       firsts: set<TicketMove>): set<DoubleMove>
    requires p < |players|
  {
    if currentRound != |rounds| - 1 && HasTicket(players[p].tickets, Ticket.Double)
    then DoublesFrom(players, graph, p, firsts)
    else {}
  }

  /**
   * A double move offered to player p from `location` is exactly a legal
   * single move followed by a legal single move from its destination, when
   * the round is not the last, p holds a DOUBLE ticket and the two leg
   * tickets are held in the needed quantity.
   */
  lemma DoubleMovesLegal(players: seq<Player>, graph: Graph, p: nat, location: int, currentRound: int,
                         rounds: seq<bool>, d: DoubleMove)
    requires p < |players|
    ensures d in DoubleMoves(players, graph, p, currentRound, rounds, TicketMoves(players, graph, p, location))
      <==> && currentRound != |rounds| - 1
           && HasTicket(players[p].tickets, Ticket.Double)
           && d.colour == players[p].colour
           && LegalAlong(players, p, OutEdges(graph, location), d.FirstMove())
           && LegalAlong(players, p, OutEdges(graph, d.firstDestination), d.SecondMove())
           && LegTicketsHeld(players[p].tickets, d.firstTicket, d.secondTicket)
  {
    TicketMovesLegal(players, graph, p, location, d.FirstMove());
    TicketMovesLegal(players, graph, p, d.firstDestination, d.SecondMove());
    var firsts := TicketMoves(players, graph, p, location);
    if d in DoubleMoves(players, graph, p, currentRound, rounds, firsts) {
      var f, s :| f in firsts && s in TicketMoves(players, graph, p, f.destination)
                  && LegTicketsHeld(players[p].tickets, f.ticket, s.ticket)
                  && d == Combine(players[p].colour, f, s);
      TicketMovesLegal(players, graph, p, location, f);
      TicketMovesLegal(players, graph, p, f.destination, s);
    }
  }

  /** `getValidMoves`: single moves, Mr X's double moves, and a pass for a stuck detective. */
  function ValidMoves(rounds: seq<bool>, graph: Graph, players: seq<Player>, currentRound: int, p: nat): set<Move>
    requires p < |players|
  {
    var player := players[p];
    var singles := TicketMoves(players, graph, p, player.location);
    var moves := (set m | m in singles :: Single(m))
      + (if IsMrX(player.colour)
         then set d | d in DoubleMoves(players, graph, p, currentRound, rounds, singles) :: Move.Double(d)
         else {});
    if IsDetective(player.colour) && moves == {} then {Pass(player.colour)} else moves
  }

  /** Every move offered to player p is p's own. */
  lemma ValidMovesOwnColour(rounds: seq<bool>, graph: Graph, players: seq<Player>, currentRound: int, p: nat, m: Move)
    requires p < |players|
    requires m in ValidMoves(rounds, graph, players, currentRound, p)
    ensures m.Colour() == players[p].colour
  {
    var singles := TicketMoves(players, graph, p, players[p].location);
    match m
    case Single(tm) =>
      TicketMovesLegal(players, graph, p, players[p].location, tm);
    case Double(d) =>
      DoubleMovesLegal(players, graph, p, players[p].location, currentRound, rounds, d);
    case Pass(c) =>
  }

  /**
   * The shape of the offer: a detective never gets a double move and gets
   * a pass exactly when it has no single move, and then only the pass; Mr X
   * never gets a pass, and is offered nothing exactly when he has no single
   * move (double moves cannot rescue him).
   */
  lemma ValidMovesShape(rounds: seq<bool>, graph: Graph, players: seq<Player>, currentRound: int, p: nat)
    requires p < |players|
    ensures var moves := ValidMoves(rounds, graph, players, currentRound, p);
            var singles := TicketMoves(players, graph, p, players[p].location);
      && (IsDetective(players[p].colour) ==>
            && (forall d :: Move.Double(d) !in moves)
            && (Pass(players[p].colour) in moves <==> singles == {})
            && (singles == {} ==> moves == {Pass(players[p].colour)}))
      && (IsMrX(players[p].colour) ==>
            && (forall c :: Pass(c) !in moves)
            && (moves == {} <==> singles == {}))
  {
    var singles := TicketMoves(players, graph, p, players[p].location);
    var moves := ValidMoves(rounds, graph, players, currentRound, p);
    if singles != {} {
      var m :| m in singles;
      assert Single(m) in moves;
    }
  }

  /** Single moves offered to a detective never spend a DOUBLE or SECRET ticket it does not hold. */
  lemma DetectiveTicketHeld(rounds: seq<bool>, graph: Graph, players: seq<Player>, currentRound: int, p: nat, tm: TicketMove)
    requires RosterOk(players) && 1 <= p < |players|
    requires Single(tm) in ValidMoves(rounds, graph, players, currentRound, p)
    ensures HasTicket(players[p].tickets, tm.ticket)
    ensures tm.ticket != Ticket.Double && tm.ticket != Ticket.Secret
  {
    TicketMovesLegal(players, graph, p, players[p].location, tm);
  }

  // ---------------------------------------------------------------------------
  // The generators

  /**
   * `getTicketMoves`: for each edge out of `location`, decides whether another
   * detective occupies its destination (the flag is kept across edges, as in
   * the source) and adds the move by the edge's ticket and the secret move.
   */
  method GetTicketMoves(players: seq<Player>, graph: Graph, p: nat, location: int) returns (moves: set<TicketMove>)
    requires p < |players|
    ensures moves == TicketMoves(players, graph, p, location)
  {
    moves := {};
    var edges := OutEdges(graph, location);
    var colour := players[p].colour;
    var occupiedByDetective := false;
    for i := 0 to |edges|
      invariant moves == MovesAlong(players, p, edges[..i])
      invariant !OtherDetectiveAmong(players, p, |players|) ==> !occupiedByDetective
    {
      var edge := edges[i];
      ghost var before := occupiedByDetective;
      var k := 0;
      while k < |players|
        invariant 0 <= k <= |players|
        invariant OtherDetectiveAmong(players, p, k) ==> !occupiedByDetective
        invariant !OccupiedAmong(players, p, edge.destination, k)
        invariant !OtherDetectiveAmong(players, p, k) ==> occupiedByDetective == before
      {
        if IsDetective(players[k].colour) && k != p {
          occupiedByDetective := players[k].location == edge.destination;
          if occupiedByDetective {
            break;
          }
        }
        k := k + 1;
      }
      assert occupiedByDetective == Occupied(players, p, edge.destination);
      var ticket := FromTransport(edge.transport);
      if HasTicket(players[p].tickets, ticket) && !occupiedByDetective {
        moves := moves + {TicketMove(colour, ticket, edge.destination)};
      }
      if HasTicket(players[p].tickets, Ticket.Secret) && !occupiedByDetective {
        moves := moves + {TicketMove(colour, Ticket.Secret, edge.destination)};
      }
      assert edges[..i + 1][..i] == edges[..i];
    }
    assert edges[..|edges|] == edges;
  }

  lemma DoublesFromStep(players: seq<Player>, graph: Graph, p: nat, done: set<TicketMove>, f: TicketMove)
    requires p < |players|
    ensures DoublesFrom(players, graph, p, done + {f})
            == DoublesFrom(players, graph, p, done) + DoublesStarting(players, p, f, TicketMoves(players, graph, p, f.destination))
  {
  }

  /**
   * `getDoubleMoves`: when the round is not the last and the player holds a
   * DOUBLE ticket, pairs every first move with every single move from its
   * destination whose tickets the player holds in the needed quantity.
   */
  method GetDoubleMoves(players: seq<Player>, graph: Graph, p: nat, currentRound: int, rounds: seq<bool>,
                        firstTicketMoves: set<TicketMove>)
    returns (doubles: set<DoubleMove>)
    requires p < |players|
    ensures doubles == DoubleMoves(players, graph, p, currentRound, rounds, firstTicketMoves)
  {
    doubles := {};
    var player := players[p];
    if currentRound != |rounds| - 1 && HasTicket(player.tickets, Ticket.Double) {
      var remaining := firstTicketMoves;
      while remaining != {}
        invariant remaining <= firstTicketMoves
        invariant doubles == DoublesFrom(players, graph, p, firstTicketMoves - remaining)
        decreases remaining
      {
        var firstMove :| firstMove in remaining;
        var secondTicketMoves := GetTicketMoves(players, graph, p, firstMove.destination);
        var rest := secondTicketMoves;
        ghost var done := firstTicketMoves - remaining;
        while rest != {}
          invariant rest <= secondTicketMoves
          invariant doubles == DoublesFrom(players, graph, p, done)
                               + DoublesStarting(players, p, firstMove, secondTicketMoves - rest)
          decreases rest
        {
          var secondMove :| secondMove in rest;
          var dm := DoubleMove(player.colour, firstMove.ticket, firstMove.destination,
                               secondMove.ticket, secondMove.destination);
          if firstMove.ticket == secondMove.ticket {
            if HasTickets(player.tickets, firstMove.ticket, 2) {
              doubles := doubles + {dm};
            }
          } else if HasTicket(player.tickets, firstMove.ticket) && HasTicket(player.tickets, secondMove.ticket) {
            doubles := doubles + {dm};
          }
          rest := rest - {secondMove};
        }
        DoublesFromStep(players, graph, p, done, firstMove);
        assert firstTicketMoves - (remaining - {firstMove}) == done + {firstMove};
        remaining := remaining - {firstMove};
      }
    }
  }

  /** `getValidMoves`: the offer to player p on its turn. */
  method GetValidMoves(rounds: seq<bool>, graph: Graph, players: seq<Player>, currentRound: int, p: nat)
    returns (moves: set<Move>)
    requires p < |players|
    ensures moves == ValidMoves(rounds, graph, players, currentRound, p)
  {
    var player := players[p];
    var firstTicketMoves := GetTicketMoves(players, graph, p, player.location);
    moves := set m | m in firstTicketMoves :: Single(m);
    if IsMrX(player.colour) {
      var doubles := GetDoubleMoves(players, graph, p, currentRound, rounds, firstTicketMoves);
      moves := moves + set d | d in doubles :: Move.Double(d);
    }
    if IsDetective(player.colour) && moves == {} {
      moves := moves + {Pass(player.colour)};
    }
  }
}
