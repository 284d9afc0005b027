/**
 * What spectators are told about each move.  Every notifier walks the
 * spectator list in order and returns the callbacks it delivers as a trace
 * of events; the trace functions below specify those traces.
 */
module Notify {
  import opened Types

  /**
   * Mr X's ticket move as a spectator sees it: on a hidden round the real
   * destination is replaced by `destination`; other moves are shown as made.
   */
  function Shown(move: TicketMove, isReveal: bool, destination: int): TicketMove
  {
    if IsMrX(move.colour) && !isReveal then TicketMove(move.colour, move.ticket, destination) else move
  }

  /**
   * The four observer-facing forms of a double move spanning a round that
   * does (`revealFirst`) or does not reveal and a following round that does
   * (`revealSecond`) or does not: reveal-reveal, reveal-hidden (R2H),
   * hidden-reveal (H2R) and hidden-hidden (H2H).
   */
  function Represent(move: DoubleMove, revealFirst: bool, revealSecond: bool, revealedLocation: int): DoubleMove
  {
    if revealFirst && revealSecond then move
    else if revealFirst then
      DoubleMove(move.colour, move.firstTicket, move.firstDestination, move.secondTicket, move.firstDestination)
    else if revealSecond then
      DoubleMove(move.colour, move.firstTicket, revealedLocation, move.secondTicket, move.FinalDestination())
    else
      DoubleMove(move.colour, move.firstTicket, revealedLocation, move.secondTicket, revealedLocation)
  }

  /** The disclosed location after a leg to `destination` on a round that does or does not reveal. */
  function Disclose(revealed: int, isReveal: bool, destination: int): int
  {
    if isReveal then destination else revealed
  }

  /**
   * Only destinations differ between a double move and any of its shown
   * forms, and each shown destination is exactly what the engine discloses
   * after that leg: a revealed true destination or the last disclosed
   * location.
   */
  lemma RepresentDisclosesNoMore(move: DoubleMove, revealFirst: bool, revealSecond: bool, revealed: int)
    ensures var shown := Represent(move, revealFirst, revealSecond, revealed);
      && shown.colour == move.colour
      && shown.firstTicket == move.firstTicket
      && shown.secondTicket == move.secondTicket
      && shown.firstDestination == Disclose(revealed, revealFirst, move.firstDestination)
      && shown.secondDestination
         == Disclose(Disclose(revealed, revealFirst, move.firstDestination), revealSecond, move.secondDestination)
  {
  }

  /** One `onMoveMade(move)` per spectator, in list order. */
  function MoveMadeEach(spectators: seq<Spectator>, move: Move): seq<Event>
  {
    if spectators == [] then []
    else MoveMadeEach(spectators[..|spectators| - 1], move) + [MoveMade(spectators[|spectators| - 1], move)]
  }

  /** `onMoveMade(move)` then `onRoundStarted(round)` per spectator, in list order. */
  function MoveThenRoundEach(spectators: seq<Spectator>, move: Move, round: int): seq<Event>
  {
    if spectators == [] then []
    else
      var s := spectators[|spectators| - 1];
      MoveThenRoundEach(spectators[..|spectators| - 1], move, round) + [MoveMade(s, move), RoundStarted(s, round)]
  }

  /** One `onRotationComplete` per spectator, in list order. */
  function RotationCompleteEach(spectators: seq<Spectator>): seq<Event>
  {
    if spectators == [] then []
    else RotationCompleteEach(spectators[..|spectators| - 1]) + [RotationComplete(spectators[|spectators| - 1])]
  }

  /** One `onGameOver(winners)` per spectator, in list order. */
  function GameOverEach(spectators: seq<Spectator>, winners: set<Colour>): seq<Event>
  {
    if spectators == [] then []
    else GameOverEach(spectators[..|spectators| - 1], winners) + [GameOver(spectators[|spectators| - 1], winners)]
  }

  /**
   * The callbacks `ticketMoveWithRoundNotifAlt` gives the spectator at
   * position i: for Mr X, the round number the shared counter holds at that
   * point (it has been decremented i times), then the move, judged against
   * the round one below that.
   */
  function AltBlock(s: Spectator, i: nat, move: TicketMove, round: int, rounds: seq<bool>, destination: int): seq<Event>
    requires IsMrX(move.colour) ==> 0 <= round - 1 - i < |rounds|
  {
    if IsMrX(move.colour) then
      [RoundStarted(s, round - i), MoveMade(s, Single(Shown(move, rounds[round - 1 - i], destination)))]
    else
      [MoveMade(s, Single(move))]
  }

  /** The trace of `ticketMoveWithRoundNotifAlt`, spectator by spectator. */
  function AltEvents(spectators: seq<Spectator>, move: TicketMove, round: int, rounds: seq<bool>, destination: int): seq<Event>
    requires IsMrX(move.colour) && |spectators| > 0 ==> |spectators| <= round <= |rounds|
  {
    if spectators == [] then []
    else
      var i := |spectators| - 1;
      AltEvents(spectators[..i], move, round, rounds, destination)
        + AltBlock(spectators[i], i, move, round, rounds, destination)
  }

  /** The trace of `ticketMoveWithRoundNotif`. */
  function WithRoundEvents(spectators: seq<Spectator>, move: TicketMove, round: int, rounds: seq<bool>, destination: int): seq<Event>
    requires IsMrX(move.colour) && |spectators| > 0 ==> 0 <= round < |rounds|
  {
    if spectators == [] then []
    else if IsMrX(move.colour) then MoveThenRoundEach(spectators, Single(Shown(move, rounds[round], destination)), round)
    else MoveMadeEach(spectators, Single(move))
  }

  /** The trace of `ticketMoveNotif`. */
  function TicketEvents(spectators: seq<Spectator>, move: TicketMove, round: int, rounds: seq<bool>, destination: int): seq<Event>
    requires IsMrX(move.colour) && |spectators| > 0 ==> 0 <= round < |rounds|
  {
    if spectators == [] then []
    else if IsMrX(move.colour) then MoveMadeEach(spectators, Single(Shown(move, rounds[round], destination)))
    else MoveMadeEach(spectators, Single(move))
  }

  // ---------------------------------------------------------------------------
  // Properties of the traces

  /** Exactly one event per spectator, the i-th for the i-th spectator. */
  lemma {:induction false} MoveMadeEachAt(spectators: seq<Spectator>, move: Move, i: nat)
    requires i < |spectators|
    ensures |MoveMadeEach(spectators, move)| == |spectators|
    ensures MoveMadeEach(spectators, move)[i] == MoveMade(spectators[i], move)
  {
    var n := |spectators| - 1;
    MoveMadeEachLength(spectators[..n], move);
    if i < n {
      MoveMadeEachAt(spectators[..n], move, i);
    }
  }

  lemma {:induction false} MoveMadeEachLength(spectators: seq<Spectator>, move: Move)
    ensures |MoveMadeEach(spectators, move)| == |spectators|
  {
    if spectators != [] {
      MoveMadeEachLength(spectators[..|spectators| - 1], move);
    }
  }

  /** Each spectator receives its own game-over event, in list order. */
  lemma {:induction false} GameOverEachAt(spectators: seq<Spectator>, winners: set<Colour>, i: nat)
    requires i < |spectators|
    ensures |GameOverEach(spectators, winners)| == |spectators|
    ensures GameOverEach(spectators, winners)[i] == GameOver(spectators[i], winners)
  {
    var n := |spectators| - 1;
    GameOverEachLength(spectators[..n], winners);
    if i < n {
      GameOverEachAt(spectators[..n], winners, i);
    }
  }

  lemma {:induction false} GameOverEachLength(spectators: seq<Spectator>, winners: set<Colour>)
    ensures |GameOverEach(spectators, winners)| == |spectators|
  {
    if spectators != [] {
      GameOverEachLength(spectators[..|spectators| - 1], winners);
    }
  }

  /** Spectator i receives events 2i (the move) and 2i+1 (the round). */
  lemma {:induction false} MoveThenRoundEachAt(spectators: seq<Spectator>, move: Move, round: int, i: nat)
    requires i < |spectators|
    ensures |MoveThenRoundEach(spectators, move, round)| == 2 * |spectators|
    ensures MoveThenRoundEach(spectators, move, round)[2 * i] == MoveMade(spectators[i], move)
    ensures MoveThenRoundEach(spectators, move, round)[2 * i + 1] == RoundStarted(spectators[i], round)
  {
    var n := |spectators| - 1;
    MoveThenRoundEachLength(spectators[..n], move, round);
    if i < n {
      MoveThenRoundEachAt(spectators[..n], move, round, i);
    }
  }

  lemma {:induction false} MoveThenRoundEachLength(spectators: seq<Spectator>, move: Move, round: int)
    ensures |MoveThenRoundEach(spectators, move, round)| == 2 * |spectators|
  {
    if spectators != [] {
      MoveThenRoundEachLength(spectators[..|spectators| - 1], move, round);
    }
  }

  /**
   * In `ticketMoveWithRoundNotifAlt`, Mr X's spectator i is first told that
   * round `round - i` started, and then shown the move judged against round
   * `round - 1 - i`: later spectators see ever smaller round numbers.
   */
  lemma {:induction false} AltEventsAt(spectators: seq<Spectator>, move: TicketMove, round: int,
                                       rounds: seq<bool>, destination: int, i: nat)
    requires IsMrX(move.colour)
    requires i < |spectators| <= round <= |rounds|
    ensures |AltEvents(spectators, move, round, rounds, destination)| == 2 * |spectators|
    ensures AltEvents(spectators, move, round, rounds, destination)[2 * i] == RoundStarted(spectators[i], round - i)
    ensures AltEvents(spectators, move, round, rounds, destination)[2 * i + 1]
            == MoveMade(spectators[i], Single(Shown(move, rounds[round - 1 - i], destination)))
  {
    var n := |spectators| - 1;
    AltEventsLength(spectators[..n], move, round, rounds, destination);
    if i < n {
      AltEventsAt(spectators[..n], move, round, rounds, destination, i);
    }
  }

  lemma {:induction false} AltEventsLength(spectators: seq<Spectator>, move: TicketMove, round: int,
                                           rounds: seq<bool>, destination: int)
    requires IsMrX(move.colour)
    requires |spectators| > 0 ==> |spectators| <= round <= |rounds|
    ensures |AltEvents(spectators, move, round, rounds, destination)| == 2 * |spectators|
  {
    if spectators != [] {
      AltEventsLength(spectators[..|spectators| - 1], move, round, rounds, destination);
    }
  }

  /** A detective's move reaches every spectator verbatim, once, through the Alt notifier. */
  lemma {:induction false} AltEventsDetective(spectators: seq<Spectator>, move: TicketMove, round: int,
                                              rounds: seq<bool>, destination: int)
    requires IsDetective(move.colour)
    ensures AltEvents(spectators, move, round, rounds, destination) == MoveMadeEach(spectators, Single(move))
  {
    if spectators != [] {
      AltEventsDetective(spectators[..|spectators| - 1], move, round, rounds, destination);
    }
  }

  /**
   * When the destination handed to `ticketMoveWithRoundNotif` or
   * `ticketMoveNotif` is the move's own destination (as the engine does
   * for the legs of a double move), the round flag read makes no
   * difference: the move is delivered as given.
   */
  lemma ShownOwnDestination(move: TicketMove, isReveal: bool)
    ensures Shown(move, isReveal, move.destination) == move
  {
  }

  // ---------------------------------------------------------------------------
  // The notifiers

  /**
   * `doubleMoveNotif`: chooses the shown form of a double move and announces
   * it, then the (pre-move) round, to every spectator.  With no spectators
   * the loop never runs and the real move comes back unchanged.
   */
  method DoubleMoveNotif(spectators: seq<Spectator>, move: DoubleMove, currentRound: int, rounds: seq<bool>,
                         revealedLocation: int)
    returns (chosen: DoubleMove, events: seq<Event>)
    requires |spectators| > 0 ==> 0 <= currentRound && currentRound + 1 < |rounds|
    ensures |spectators| == 0 ==> chosen == move
    ensures |spectators| > 0 ==>
      chosen == Represent(move, rounds[currentRound], rounds[currentRound + 1], revealedLocation)
    ensures events == MoveThenRoundEach(spectators, Move.Double(chosen), currentRound)
  {
    var h2h := DoubleMove(move.colour, move.firstTicket, revealedLocation, move.secondTicket, revealedLocation);
    var r2h := DoubleMove(move.colour, move.firstTicket, move.firstDestination, move.secondTicket, move.firstDestination);
    var h2r := DoubleMove(move.colour, move.firstTicket, revealedLocation, move.secondTicket, move.FinalDestination());
    chosen := move;
    events := [];
    for i := 0 to |spectators|
      invariant i > 0 ==> chosen == Represent(move, rounds[currentRound], rounds[currentRound + 1], revealedLocation)
      invariant i == 0 ==> chosen == move
      invariant events == MoveThenRoundEach(spectators[..i], Move.Double(chosen), currentRound)
    {
      var s := spectators[i];
      if rounds[currentRound] && rounds[currentRound + 1] {
        events := events + [MoveMade(s, Move.Double(chosen)), RoundStarted(s, currentRound)];
      } else if rounds[currentRound] {
        chosen := r2h;
        events := events + [MoveMade(s, Move.Double(chosen)), RoundStarted(s, currentRound)];
      } else if rounds[currentRound + 1] {
        chosen := h2r;
        events := events + [MoveMade(s, Move.Double(chosen)), RoundStarted(s, currentRound)];
      } else {
        chosen := h2h;
        events := events + [MoveMade(s, Move.Double(chosen)), RoundStarted(s, currentRound)];
      }
      assert spectators[..i + 1][..i] == spectators[..i];
    }
    assert spectators[..|spectators|] == spectators;
  }

  /**
   * `ticketMoveWithRoundNotifAlt`: for Mr X each spectator is first told the
   * round started, then the round counter (a parameter shared by all
   * iterations) is decremented and the move is shown verbatim iff that round
   * reveals, otherwise with `destination`.  A detective's move is delivered
   * verbatim.  Mr X's reads go below round 0 once there are more spectators
   * than `currentRound`: the requires names that bound.
   */
  method TicketMoveWithRoundNotifAlt(spectators: seq<Spectator>, move: TicketMove, currentRound: int,
                                     rounds: seq<bool>, destination: int)
    returns (events: seq<Event>)
    requires IsMrX(move.colour) && |spectators| > 0 ==> |spectators| <= currentRound <= |rounds|
    ensures events == AltEvents(spectators, move, currentRound, rounds, destination)
  {
    var round := currentRound;
    events := [];
    for i := 0 to |spectators|
      invariant round == if IsMrX(move.colour) then currentRound - i else currentRound
      invariant events == AltEvents(spectators[..i], move, currentRound, rounds, destination)
    {
      var s := spectators[i];
      if IsMrX(move.colour) {
        events := events + [RoundStarted(s, round)];
        round := round - 1;
        if rounds[round] {
          events := events + [MoveMade(s, Single(move))];
        } else {
          events := events + [MoveMade(s, Single(TicketMove(move.colour, move.ticket, destination)))];
        }
      } else {
        events := events + [MoveMade(s, Single(move))];
      }
      assert spectators[..i + 1][..i] == spectators[..i];
    }
    assert spectators[..|spectators|] == spectators;
  }

  /**
   * `ticketMoveWithRoundNotif`: Mr X's move (verbatim iff `rounds[currentRound]`,
   * otherwise with `destination`) and then the round, per spectator; a
   * detective's move verbatim.
   */
  method TicketMoveWithRoundNotif(spectators: seq<Spectator>, move: TicketMove, currentRound: int,
                                  rounds: seq<bool>, destination: int)
    returns (events: seq<Event>)
    requires IsMrX(move.colour) && |spectators| > 0 ==> 0 <= currentRound < |rounds|
    ensures events == WithRoundEvents(spectators, move, currentRound, rounds, destination)
  {
    events := [];
    for i := 0 to |spectators|
      invariant |spectators| == 0 ==> events == []
      invariant IsMrX(move.colour) && |spectators| > 0 ==>
        events == MoveThenRoundEach(spectators[..i], Single(Shown(move, rounds[currentRound], destination)), currentRound)
      invariant IsDetective(move.colour) ==> events == MoveMadeEach(spectators[..i], Single(move))
    {
      var s := spectators[i];
      if IsMrX(move.colour) {
        if rounds[currentRound] {
          events := events + [MoveMade(s, Single(move))];
        } else {
          events := events + [MoveMade(s, Single(TicketMove(move.colour, move.ticket, destination)))];
        }
        events := events + [RoundStarted(s, currentRound)];
      } else {
        events := events + [MoveMade(s, Single(move))];
      }
      assert spectators[..i + 1][..i] == spectators[..i];
    }
    assert spectators[..|spectators|] == spectators;
  }

  /**
   * `ticketMoveNotif`: Mr X's move (verbatim iff `rounds[currentRound]`,
   * otherwise with `destination`) per spectator; a detective's move verbatim.
   */
  method TicketMoveNotif(spectators: seq<Spectator>, move: TicketMove, currentRound: int,
                         rounds: seq<bool>, destination: int)
    returns (events: seq<Event>)
    requires IsMrX(move.colour) && |spectators| > 0 ==> 0 <= currentRound < |rounds|
    ensures events == TicketEvents(spectators, move, currentRound, rounds, destination)
  {
    events := [];
    for i := 0 to |spectators|
      invariant |spectators| == 0 ==> events == []
      invariant IsMrX(move.colour) && |spectators| > 0 ==>
        events == MoveMadeEach(spectators[..i], Single(Shown(move, rounds[currentRound], destination)))
      invariant IsDetective(move.colour) ==> events == MoveMadeEach(spectators[..i], Single(move))
    {
      var s := spectators[i];
      if IsMrX(move.colour) {
        if rounds[currentRound] {
          events := events + [MoveMade(s, Single(move))];
        } else {
          events := events + [MoveMade(s, Single(TicketMove(move.colour, move.ticket, destination)))];
        }
      } else {
        events := events + [MoveMade(s, Single(move))];
      }
      assert spectators[..i + 1][..i] == spectators[..i];
    }
    assert spectators[..|spectators|] == spectators;
  }

  /** `passMoveNotif`: the pass, unchanged, to every spectator in order. */
  method PassMoveNotif(spectators: seq<Spectator>, move: Move) returns (events: seq<Event>)
    requires move.Pass?
    ensures events == MoveMadeEach(spectators, move)
  {
    events := [];
    for i := 0 to |spectators|
      invariant events == MoveMadeEach(spectators[..i], move)
    {
      events := events + [MoveMade(spectators[i], move)];
      assert spectators[..i + 1][..i] == spectators[..i];
    }
    assert spectators[..|spectators|] == spectators;
  }

  /** `gameOverNotif`: the winner set, unchanged, to every spectator in order. */
  method GameOverNotif(spectators: seq<Spectator>, winners: set<Colour>) returns (events: seq<Event>)
    ensures events == GameOverEach(spectators, winners)
  {
    events := [];
    for i := 0 to |spectators|
      invariant events == GameOverEach(spectators[..i], winners)
    {
      events := events + [GameOver(spectators[i], winners)];
      assert spectators[..i + 1][..i] == spectators[..i];
    }
    assert spectators[..|spectators|] == spectators;
  }
}
