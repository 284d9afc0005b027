/**
 * The helper types the Scotland Yard model uses but does not define itself:
 * colours, tickets, transports, moves, player records, the transport graph
 * and the spectator events.  Only the semantics the engine relies on are
 * stated here.
 */
module Types {

  datatype Option<T> = None | Some(value: T)

  /** Black is Mr X; every other colour is a detective. */
  datatype Colour = Black | Blue | Green | Red | White | Yellow

  predicate IsMrX(c: Colour) { c == Black }

  predicate IsDetective(c: Colour) { c != Black }

  datatype Transport = Taxi | Bus | Underground | Ferry

  datatype Ticket = Taxi | Bus | Underground | Double | Secret

  /** The ticket an edge of the given transport asks for; a ferry needs a secret ticket. */
  function FromTransport(t: Transport): Ticket
  {
    match t
    case Taxi => Ticket.Taxi
    case Bus => Ticket.Bus
    case Underground => Ticket.Underground
    case Ferry => Ticket.Secret
  }

  /** A single move: one ticket spent to reach one destination. */
  datatype TicketMove = TicketMove(colour: Colour, ticket: Ticket, destination: int)

  /** Two single moves played as one turn. */
  datatype DoubleMove = DoubleMove(colour: Colour, firstTicket: Ticket, firstDestination: int,
                                   secondTicket: Ticket, secondDestination: int)
  {
    function FirstMove(): TicketMove { TicketMove(colour, firstTicket, firstDestination) }
    function SecondMove(): TicketMove { TicketMove(colour, secondTicket, secondDestination) }
    function FinalDestination(): int { secondDestination }
  }

  datatype Move = Single(ticketMove: TicketMove) | Double(doubleMove: DoubleMove) | Pass(colour: Colour)
  {
    function Colour(): Colour
    {
      match this
      case Single(m) => m.colour
      case Double(d) => d.colour
      case Pass(c) => c
    }
  }

  /** A ticket map; a kind the map does not list counts as zero. */
  type Tickets = map<Ticket, int>

  function Count(tickets: Tickets, t: Ticket): int
  {
    if t in tickets then tickets[t] else 0
  }

  /** `hasTickets(t)`: at least one ticket of kind t. */
  predicate HasTicket(tickets: Tickets, t: Ticket)
  {
    Count(tickets, t) >= 1
  }

  /** `hasTickets(t, n)`: at least n tickets of kind t. */
  predicate HasTickets(tickets: Tickets, t: Ticket, n: int)
  {
    Count(tickets, t) >= n
  }

  /** The map has an entry for each of the five ticket kinds. */
  predicate HasAllKinds(tickets: Tickets)
  {
    Ticket.Taxi in tickets && Ticket.Bus in tickets && Ticket.Underground in tickets
    && Ticket.Double in tickets && Ticket.Secret in tickets
  }

  /** The sum of a ticket map's values, when the map lists exactly the five kinds. */
  function TicketTotal(tickets: Tickets): int
  {
    Count(tickets, Ticket.Taxi) + Count(tickets, Ticket.Bus) + Count(tickets, Ticket.Underground)
    + Count(tickets, Ticket.Double) + Count(tickets, Ticket.Secret)
  }

  /** `removeTicket`: one ticket of kind t fewer. */
  function RemoveTicket(tickets: Tickets, t: Ticket): (r: Tickets)
    ensures Count(r, t) == Count(tickets, t) - 1
    ensures forall u :: u != t ==> Count(r, u) == Count(tickets, u)
    ensures TicketTotal(r) == TicketTotal(tickets) - 1
    ensures HasAllKinds(tickets) ==> HasAllKinds(r)
  {
    assert t == Ticket.Taxi || t == Ticket.Bus || t == Ticket.Underground || t == Ticket.Double || t == Ticket.Secret;
    tickets[t := Count(tickets, t) - 1]
  }

  /** `addTicket`: one ticket of kind t more. */
  function AddTicket(tickets: Tickets, t: Ticket): (r: Tickets)
    ensures Count(r, t) == Count(tickets, t) + 1
    ensures forall u :: u != t ==> Count(r, u) == Count(tickets, u)
    ensures TicketTotal(r) == TicketTotal(tickets) + 1
    ensures HasAllKinds(tickets) ==> HasAllKinds(r)
  {
    assert t == Ticket.Taxi || t == Ticket.Bus || t == Ticket.Underground || t == Ticket.Double || t == Ticket.Secret;
    tickets[t := Count(tickets, t) + 1]
  }

  /** A configured player, as handed to the game's constructor. */
  datatype PlayerConfiguration = PlayerConfiguration(colour: Colour, location: int, tickets: Tickets)

  /** A player record of the running game. */
  datatype Player = Player(colour: Colour, location: int, tickets: Tickets)

  /** Outgoing edge of the transport graph. */
  datatype Edge = Edge(destination: int, transport: Transport)

  /** The read-only transport graph: node to its outgoing edges. */
  type Graph = map<int, seq<Edge>>

  /** A registered observer. */
  type Spectator = nat

  /** One callback delivered to one spectator. */
  datatype Event =
    | MoveMade(to: Spectator, move: Move)
    | RoundStarted(to: Spectator, round: int)
    | RotationComplete(to: Spectator)
    | GameOver(to: Spectator, winners: set<Colour>)

  /** The value of the round counter before the first move. */
  const NotStarted := 0
}
