/**
 * The checks the game's constructor makes on its arguments, in the order it
 * makes them, and the player list it then builds.
 */
module Setup {
  import opened Types
  import opened Roster

  /** Why a configuration is refused; each is an `IllegalArgumentException` in the source. */
  datatype ConfigError =
    | EmptyRounds
    | EmptyMap
    | MrXNotBlack
    | DuplicateLocation
    | DuplicateColour
    | MissingTickets
    | DetectiveHasDouble
    | DetectiveHasSecret

  /** Mr X first, then the first detective, then the rest in the order given. */
  function Configurations(mrX: PlayerConfiguration, firstDetective: PlayerConfiguration,
                          rest: seq<PlayerConfiguration>): (configs: seq<PlayerConfiguration>)
    ensures |configs| == |rest| + 2
    ensures configs[0] == mrX && configs[1] == firstDetective
    ensures forall k :: 0 <= k < |rest| ==> configs[k + 2] == rest[k]
  {
    [mrX, firstDetective] + rest
  }

  predicate DistinctLocationsUpTo(configs: seq<PlayerConfiguration>, n: nat)
    requires n <= |configs|
  {
    forall i, j :: 0 <= i < j < n ==> configs[i].location != configs[j].location
  }

  predicate DistinctColoursUpTo(configs: seq<PlayerConfiguration>, n: nat)
    requires n <= |configs|
  {
    forall i, j :: 0 <= i < j < n ==> configs[i].colour != configs[j].colour
  }

  /** The ticket checks on one configuration, in source order. */
  function TicketError(c: PlayerConfiguration): Option<ConfigError>
  {
    if !HasAllKinds(c.tickets) then Some(MissingTickets)
    else if IsDetective(c.colour) && c.tickets[Ticket.Double] > 0 then Some(DetectiveHasDouble)
    else if IsDetective(c.colour) && c.tickets[Ticket.Secret] > 0 then Some(DetectiveHasSecret)
    else None
  }

  /** The ticket error of the first of the first n configurations that has one. */
  function FirstTicketError(configs: seq<PlayerConfiguration>, n: nat): Option<ConfigError>
    requires n <= |configs|
  {
    if n == 0 then None
    else if FirstTicketError(configs, n - 1).Some? then FirstTicketError(configs, n - 1)
    else TicketError(configs[n - 1])
  }

  /** The constructor's verdict: the first failing check, or None when all pass. */
  function ConfigCheck(rounds: seq<bool>, graph: Graph, configs: seq<PlayerConfiguration>): Option<ConfigError>
    requires |configs| > 0
  {
    if |rounds| == 0 then Some(EmptyRounds)
    else if |graph| == 0 then Some(EmptyMap)
    else if IsDetective(configs[0].colour) then Some(MrXNotBlack)
    else if !DistinctLocationsUpTo(configs, |configs|) then Some(DuplicateLocation)
    else if !DistinctColoursUpTo(configs, |configs|) then Some(DuplicateColour)
    else FirstTicketError(configs, |configs|)
  }

  /** The player records built from the configurations, one per configuration and in order. */
  function PlayersOf(configs: seq<PlayerConfiguration>): seq<Player>
  {
    seq(|configs|, i requires 0 <= i < |configs| => Player(configs[i].colour, configs[i].location, configs[i].tickets))
  }

  /** No ticket error among the first n configurations exactly when none of them has one. */
  lemma {:induction false} FirstTicketErrorNone(configs: seq<PlayerConfiguration>, n: nat)
    requires n <= |configs|
    ensures FirstTicketError(configs, n) == None <==> forall k :: 0 <= k < n ==> TicketError(configs[k]) == None
  {
    if n > 0 {
      FirstTicketErrorNone(configs, n - 1);
    }
  }

  /** Once a configuration fails a ticket check, that error is the verdict for every longer prefix. */
  lemma {:induction false} FirstTicketErrorSticks(configs: seq<PlayerConfiguration>, i: nat, n: nat)
    requires i < n <= |configs|
    requires FirstTicketError(configs, i) == None && TicketError(configs[i]).Some?
    ensures FirstTicketError(configs, n) == TicketError(configs[i])
  {
    if n > i + 1 {
      FirstTicketErrorSticks(configs, i, n - 1);
    }
  }

  /**
   * A configuration is accepted exactly when the rounds and the map are not
   * empty, Mr X is black, locations and colours are pairwise distinct, every
   * player lists all five ticket kinds and no detective holds a DOUBLE or
   * SECRET ticket.
   */
  lemma ConfigAcceptedIff(rounds: seq<bool>, graph: Graph, configs: seq<PlayerConfiguration>)
    requires |configs| > 0
    ensures ConfigCheck(rounds, graph, configs) == None <==>
      && |rounds| > 0 && |graph| > 0
      && IsMrX(configs[0].colour)
      && (forall i, j :: 0 <= i < j < |configs| ==> configs[i].location != configs[j].location)
      && (forall i, j :: 0 <= i < j < |configs| ==> configs[i].colour != configs[j].colour)
      && (forall k :: 0 <= k < |configs| ==> HasAllKinds(configs[k].tickets))
      && (forall k :: 0 <= k < |configs| && IsDetective(configs[k].colour) ==>
            configs[k].tickets[Ticket.Double] <= 0 && configs[k].tickets[Ticket.Secret] <= 0)
  {
    FirstTicketErrorNone(configs, |configs|);
  }

  /** An accepted configuration of Mr X and at least one detective yields a valid roster. */
  lemma ValidConfigMakesRoster(rounds: seq<bool>, graph: Graph, configs: seq<PlayerConfiguration>)
    requires |configs| >= 2
    requires ConfigCheck(rounds, graph, configs) == None
    ensures RosterOk(PlayersOf(configs))
  {
    ConfigAcceptedIff(rounds, graph, configs);
    var players := PlayersOf(configs);
    forall i | 1 <= i < |players|
      ensures Count(players[i].tickets, Ticket.Double) <= 0 && Count(players[i].tickets, Ticket.Secret) <= 0
    {
      assert configs[0].colour != configs[i].colour;
    }
  }

  /**
   * The constructor's argument checks: the rounds, the map, Mr X's colour,
   * then one pass for duplicate locations, one for duplicate colours and
   * one for the ticket maps, each stopping at the first offender.
   */
  method Validate(rounds: seq<bool>, graph: Graph, mrX: PlayerConfiguration,
                  firstDetective: PlayerConfiguration, rest: seq<PlayerConfiguration>)
    returns (err: Option<ConfigError>)
    ensures err == ConfigCheck(rounds, graph, Configurations(mrX, firstDetective, rest))
  {
    if |rounds| == 0 {
      return Some(EmptyRounds);
    }
    if |graph| == 0 {
      return Some(EmptyMap);
    }
    if IsDetective(mrX.colour) {
      return Some(MrXNotBlack);
    }
    var configurations := [mrX, firstDetective];
    for i := 0 to |rest|
      invariant configurations == [mrX, firstDetective] + rest[..i]
    {
      configurations := configurations + [rest[i]];
    }
    assert rest[..|rest|] == rest;

    var dupLocation := HasDuplicateLocation(configurations);
    if dupLocation {
      return Some(DuplicateLocation);
    }
    var dupColour := HasDuplicateColour(configurations);
    if dupColour {
      return Some(DuplicateColour);
    }
    err := CheckTickets(configurations);
  }

  /** The duplicate-location pass over the configurations. */
  method HasDuplicateLocation(configurations: seq<PlayerConfiguration>) returns (dup: bool)
    ensures dup <==> !DistinctLocationsUpTo(configurations, |configurations|)
  {
    var locationSet: set<int> := {};
    for i := 0 to |configurations|
      invariant locationSet == set k | 0 <= k < i :: configurations[k].location
      invariant DistinctLocationsUpTo(configurations, i)
    {
      if configurations[i].location in locationSet {
        return true;
      }
      locationSet := locationSet + {configurations[i].location};
    }
    return false;
  }

  /** The duplicate-colour pass over the configurations. */
  method HasDuplicateColour(configurations: seq<PlayerConfiguration>) returns (dup: bool)
    ensures dup <==> !DistinctColoursUpTo(configurations, |configurations|)
  {
    var colourSet: set<Colour> := {};
    for i := 0 to |configurations|
      invariant colourSet == set k | 0 <= k < i :: configurations[k].colour
      invariant DistinctColoursUpTo(configurations, i)
    {
      if configurations[i].colour in colourSet {
        return true;
      }
      colourSet := colourSet + {configurations[i].colour};
    }
    return false;
  }

  /** The ticket pass: the first configuration missing a kind or giving a detective DOUBLE or SECRET tickets. */
  method CheckTickets(configurations: seq<PlayerConfiguration>) returns (err: Option<ConfigError>)
    ensures err == FirstTicketError(configurations, |configurations|)
  {
    for i := 0 to |configurations|
      invariant FirstTicketError(configurations, i) == None
    {
      var tickets := configurations[i].tickets;
      if TicketError(configurations[i]).Some? {
        FirstTicketErrorSticks(configurations, i, |configurations|);
      }
      if !(Ticket.Double in tickets && Ticket.Secret in tickets && Ticket.Taxi in tickets
           && Ticket.Bus in tickets && Ticket.Underground in tickets) {
        return Some(MissingTickets);
      }
      if IsDetective(configurations[i].colour) {
        if tickets[Ticket.Double] > 0 {
          return Some(DetectiveHasDouble);
        }
        if tickets[Ticket.Secret] > 0 {
          return Some(DetectiveHasSecret);
        }
      }
    }
    return None;
  }

  /** The constructor's last loop: one player record per configuration. */
  method BuildPlayers(configs: seq<PlayerConfiguration>) returns (players: seq<Player>)
    ensures players == PlayersOf(configs)
  {
    players := [];
    for i := 0 to |configs|
      invariant players == PlayersOf(configs[..i])
    {
      players := players + [Player(configs[i].colour, configs[i].location, configs[i].tickets)];
    }
    assert configs[..|configs|] == configs;
  }
}
