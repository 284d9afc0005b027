/**
 * The game's player list: its invariant and the lookup of a player by colour.
 */
module Roster {
  import opened Types

  /**
   * The roster invariant the constructor establishes and every move keeps:
   * Mr X first, at least one detective, colours unique, a ticket entry for
   * every kind, and no detective holding a usable DOUBLE or SECRET ticket.
   */
  predicate RosterOk(players: seq<Player>)
  {
    && |players| >= 2
    && IsMrX(players[0].colour)
    && (forall i, j :: 0 <= i < j < |players| ==> players[i].colour != players[j].colour)
    && (forall i :: 0 <= i < |players| ==> HasAllKinds(players[i].tickets))
    && (forall i :: 1 <= i < |players| ==>
          Count(players[i].tickets, Ticket.Double) <= 0 && Count(players[i].tickets, Ticket.Secret) <= 0)
  }

  /** In a roster, Mr X is the first entry and no other. */
  lemma MrXOnlyFirst(players: seq<Player>, k: nat)
    requires RosterOk(players) && k < |players|
    ensures IsMrX(players[k].colour) <==> k == 0
  {
    if k != 0 {
      assert players[0].colour != players[k].colour;
    }
  }

  /**
   * `getCurrentScotlandYardPlayer`: the index of the first player of the
   * given colour.  The source runs off the end of the list when there is
   * none; its callers only ask for colours that are present.
   */
  method FindPlayer(players: seq<Player>, colour: Colour) returns (i: nat)
    requires exists k :: 0 <= k < |players| && players[k].colour == colour
    ensures i < |players| && players[i].colour == colour
    ensures forall k :: 0 <= k < i ==> players[k].colour != colour
  {
    i := 0;
    while i < |players|
      invariant i <= |players|
      invariant forall k :: 0 <= k < i ==> players[k].colour != colour
    {
      if players[i].colour != colour {
        i := i + 1;
      } else {
        break;
      }
    }
  }

  /** With unique colours, the player found for a colour is the only one with it. */
  lemma FoundIsUnique(players: seq<Player>, colour: Colour, i: nat, k: nat)
    requires RosterOk(players)
    requires i < |players| && players[i].colour == colour
    requires k < |players| && players[k].colour == colour
    ensures i == k
  {
  }
}
