/**
 * Win evaluation (`winners`): four rules checked in a fixed order, and the
 * winner sets derived from the result.
 */
module Outcomes {
  import opened Types
  import opened Roster
  import opened Moves

  datatype Winner = Nobody | MrX | Detectives

  /** The sum of all ticket counts of the detectives among the first n players. */
  function DetectiveTickets(players: seq<Player>, n: nat): int
    requires n <= |players|
  {
    if n == 0 then 0
    else DetectiveTickets(players, n - 1)
         + (if IsDetective(players[n - 1].colour) then TicketTotal(players[n - 1].tickets) else 0)
  }

  /** Some detective stands on Mr X's true location. */
  predicate Captured(players: seq<Player>)
    requires |players| > 0
  {
    exists k :: 0 <= k < |players| && IsDetective(players[k].colour) && players[k].location == players[0].location
  }

  /**
   * The ordered win rules: (1) Mr X has no valid move: detectives;
   * (2) the last round is played and the rotation finished: Mr X;
   * (3) a detective is on Mr X: detectives; (4) the detectives hold no
   * ticket at all: Mr X; otherwise nobody yet.
   */
  function WinnerOf(rounds: seq<bool>, graph: Graph, players: seq<Player>, currentRound: int, roundFinished: bool): Winner
    requires RosterOk(players)
  {
    if ValidMoves(rounds, graph, players, currentRound, 0) == {} then Detectives
    else if currentRound == |rounds| && roundFinished then MrX
    else if Captured(players) then Detectives
    else if DetectiveTickets(players, |players|) == 0 then MrX
    else Nobody
  }

  /** The colours of all detectives in the roster. */
  function DetectiveColours(players: seq<Player>): set<Colour>
  {
    set k | 0 <= k < |players| && IsDetective(players[k].colour) :: players[k].colour
  }

  /** `getWinningPlayers` from the outcome of the win rules. */
  function WinningPlayers(players: seq<Player>, w: Winner): set<Colour>
  {
    match w
    case Detectives => DetectiveColours(players)
    case MrX => {Black}
    case Nobody => {}
  }

  /**
   * The game is over exactly when somebody is reported as winner; the
   * winners are all detectives or Mr X alone, never both.
   */
  lemma GameOverIffWinners(players: seq<Player>, w: Winner)
    requires RosterOk(players)
    ensures w != Nobody <==> WinningPlayers(players, w) != {}
    ensures w == MrX ==> WinningPlayers(players, w) == {Black}
    ensures w == Detectives ==> Black !in WinningPlayers(players, w)
  {
    if w == Detectives {
      assert players[1].colour in DetectiveColours(players);
    }
  }

  /**
   * Rule precedence: a stuck Mr X loses even when the last round has been
   * played; a caught Mr X loses even when the detectives have no tickets;
   * and Mr X wins on the last round even when he stands next to a detective
   * or the detectives still have tickets.
   */
  lemma WinPrecedence(rounds: seq<bool>, graph: Graph, players: seq<Player>, currentRound: int, roundFinished: bool)
    requires RosterOk(players)
    ensures TicketMoves(players, graph, 0, players[0].location) == {}
            ==> WinnerOf(rounds, graph, players, currentRound, roundFinished) == Detectives
    ensures TicketMoves(players, graph, 0, players[0].location) != {} && currentRound == |rounds| && roundFinished
            ==> WinnerOf(rounds, graph, players, currentRound, roundFinished) == MrX
    ensures TicketMoves(players, graph, 0, players[0].location) != {} && !(currentRound == |rounds| && roundFinished)
            && Captured(players)
            ==> WinnerOf(rounds, graph, players, currentRound, roundFinished) == Detectives
  {
    ValidMovesShape(rounds, graph, players, currentRound, 0);
  }

  /**
   * `winners`: the four rules in source order.  Capture and the ticket sum
   * are found in one pass over the detectives.
   */
  method Winners(rounds: seq<bool>, graph: Graph, players: seq<Player>, currentRound: int, roundFinished: bool)
    returns (w: Winner)
    requires RosterOk(players)
    ensures w == WinnerOf(rounds, graph, players, currentRound, roundFinished)
  {
    var mrXIndex := FindPlayer(players, Black);
    var mrXMoves := GetValidMoves(rounds, graph, players, currentRound, mrXIndex);
    if |mrXMoves| == 0 {
      return Detectives;
    }
    if currentRound == |rounds| && roundFinished {
      return MrX;
    }
    var captured, hasTickets := ScanDetectives(players, players[mrXIndex].location);
    if captured {
      return Detectives;
    }
    if !hasTickets {
      return MrX;
    }
    return Nobody;
  }

  /**
   * The loop of `winners`: stops at the first detective on Mr X's location;
   * otherwise sums every detective's tickets, the flag recording whether
   * the sum is non-zero after the last detective.
   */
  method ScanDetectives(players: seq<Player>, mrXLocation: int) returns (captured: bool, hasTickets: bool)
    requires RosterOk(players) && mrXLocation == players[0].location
    ensures captured <==> Captured(players)
    ensures !captured ==> (hasTickets <==> DetectiveTickets(players, |players|) != 0)
  {
    var sumOfTickets := 0;
    hasTickets := false;
    for i := 0 to |players|
      invariant sumOfTickets == DetectiveTickets(players, i)
      invariant hasTickets == (i >= 2 && sumOfTickets != 0)
      invariant forall k :: 0 <= k < i && IsDetective(players[k].colour) ==> players[k].location != mrXLocation
    {
      if IsDetective(players[i].colour) {
        if players[i].location == mrXLocation {
          return true, hasTickets;
        }
        sumOfTickets := sumOfTickets + TicketTotal(players[i].tickets);
        hasTickets := sumOfTickets != 0;
      } else {
        MrXOnlyFirst(players, i);
      }
    }
    return false, hasTickets;
  }

  /** The loop of `getWinningPlayers` that collects every detective's colour. */
  method CollectDetectiveColours(players: seq<Player>) returns (colours: set<Colour>)
    ensures colours == DetectiveColours(players)
    ensures forall c :: c in colours <==> exists k :: 0 <= k < |players| && players[k].colour == c && IsDetective(c)
  {
    colours := {};
    for i := 0 to |players|
      invariant colours == set k | 0 <= k < i && IsDetective(players[k].colour) :: players[k].colour
    {
      if IsDetective(players[i].colour) {
        colours := colours + {players[i].colour};
      }
    }
  }
}
