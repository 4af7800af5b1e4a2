/**
 * The in-memory registry of light-cycle matches, keyed by short code.
 * Creating a match draws a fresh code; joining seats the second rider or
 * rebinds a returning session's connection; a dropped connection is
 * unbound from the first seat that holds it.
 */
module LightCyclesManager {
  import opened Wrappers
  import ShortCodes
  import opened LightCycles

  const GameNotFound: string := "Game not found."
  const JoinFailed: string := "Failed to join game."
  const GameFull: string := "Game is full or already in progress."

  /** What a join attempt reports: success, an error message, and the seat (0 on failure). */
  datatype JoinOutcome = JoinOutcome(success: bool, error: Option<string>, playerNumber: int)

  class TronGameManager {
    var games: map<string, TronGame>

    /** Every match is valid and filed under its own code, and no two share a grid. */
    ghost predicate Valid()
      reads this, games.Values, set g | g in games.Values :: g.grid
    {
      && (forall k | k in games :: games[k].shortCode == k && games[k].Valid())
      && (forall k1, k2 | k1 in games && k2 in games && k1 != k2 :: games[k1].grid != games[k2].grid)
    }

    constructor ()
      ensures Valid() && games == map[]
    {
      games := map[];
    }

    /** Opens a match for its first rider under a code not yet in use. */
    method CreateGame(playerName: string, sessionId: string, attempts: seq<seq<int>>, now: int)
      returns (r: Result<(string, string)>)
      requires Valid() && ShortCodes.ValidAttempts(attempts)
      modifies this
      ensures Valid()
      ensures r.Failure? ==> games == old(games) && r.error == ShortCodes.ExhaustedMessage
      ensures r.Success? ==>
                var code := r.value.0;
                && r.value.1 == sessionId
                && ShortCodes.IsCode(code) && code !in old(games)
                && code in games && games == old(games)[code := games[code]]
                && fresh(games[code])
                && games[code].player1.sessionId == sessionId && games[code].player2.None?
                && games[code].status == Waiting
    {
      var code := ShortCodes.GenerateUniqueCode(games.Keys, attempts);
      if code.Failure? {
        return Failure(code.error);
      }
      var game := new TronGame(code.value, playerName, sessionId, now);
      games := games[code.value := game];
      return Success((code.value, sessionId));
    }

    /**
     * A returning session gets its connection rebound to its seat; a new
     * session takes the second seat of a waiting match; anything else is
     * refused with the reason.
     */
    method JoinGame(shortCode: string, playerName: string, sessionId: string, connectionId: string)
      returns (r: JoinOutcome)
      requires Valid()
      modifies if shortCode in games then {games[shortCode], games[shortCode].grid} else {}
      ensures Valid() && games == old(games)
      ensures shortCode !in games ==> r == JoinOutcome(false, Some(GameNotFound), 0)
      ensures shortCode in games ==>
                var g := games[shortCode];
                var seat := old(g.PlayerNumber(sessionId));
                && (seat == 1 ==>
                      && r == JoinOutcome(true, None, 1)
                      && g.player1 == old(g.player1).(connectionId := Some(connectionId))
                      && g.player2 == old(g.player2) && g.SameProgress())
                && (seat == 2 ==>
                      && r == JoinOutcome(true, None, 2)
                      && g.player1 == old(g.player1)
                      && g.player2 == Some(old(g.player2).value.(connectionId := Some(connectionId)))
                      && g.SameProgress())
                && (seat == 0 && old(g.status) == Waiting && old(g.player2).None? ==>
                      && r == JoinOutcome(true, None, 2)
                      && g.player2 == Some(Cycle(45, 20, Left, None, true, playerName, Some(connectionId), sessionId))
                      && g.status == Countdown)
                && (seat == 0 && old(g.status) == Waiting && old(g.player2).Some? ==>
                      r == JoinOutcome(false, Some(JoinFailed), 0) && unchanged(g) && unchanged(g.grid))
                && (seat == 0 && old(g.status) != Waiting ==>
                      r == JoinOutcome(false, Some(GameFull), 0) && unchanged(g) && unchanged(g.grid))
                && (r.success ==> g.PlayerNumber(sessionId) == r.playerNumber)
    {
      if shortCode !in games {
        return JoinOutcome(false, Some(GameNotFound), 0);
      }
      var game := games[shortCode];
      if game.player1.sessionId == sessionId {
        SetConnection(shortCode, 1, Some(connectionId));
        return JoinOutcome(true, None, 1);
      }
      if game.player2.Some? && game.player2.value.sessionId == sessionId {
        SetConnection(shortCode, 2, Some(connectionId));
        return JoinOutcome(true, None, 2);
      }
      if game.status == Waiting {
        var added := game.AddPlayer2(playerName, sessionId, connectionId);
        OnlyOneGameChanged(shortCode);
        if added {
          return JoinOutcome(true, None, 2);
        }
        return JoinOutcome(false, Some(JoinFailed), 0);
      }
      return JoinOutcome(false, Some(GameFull), 0);
    }

    /** The match filed under a code, if any. */
    function GetGame(shortCode: string): (r: Option<TronGame>)
      requires Valid()
      reads this, games.Values, set g | g in games.Values :: g.grid
      ensures r.Some? <==> shortCode in games
      ensures r.Some? ==> r.value.shortCode == shortCode && r.value.Valid()
    {
      if shortCode in games then Some(games[shortCode]) else None
    }

    /** Drops a code from the registry; other matches are untouched. */
    method RemoveGame(shortCode: string)
      requires Valid()
      modifies this
      ensures Valid()
      ensures games == old(games) - {shortCode}
    {
      games := games - {shortCode};
    }

    /** The matches the game loop drives: those counting down or running. */
    function GetActiveGames(): (active: set<TronGame>)
      reads this, games.Values
      ensures active <= games.Values
      ensures forall k | k in games :: games[k] in active <==> games[k].status in {Countdown, InProgress}
    {
      set g | g in games.Values && (g.status == Countdown || g.status == InProgress)
    }

    /**
     * Unbinds a dropped connection from the first seat (of the first match
     * visited) that holds it; `hit` names that match. The visiting order of
     * the dictionary is left open.
     */
    method HandleDisconnect(connectionId: string) returns (ghost hit: Option<string>)
      requires Valid()
      modifies games.Values
      ensures Valid() && games == old(games)
      ensures hit.None? ==> forall k | k in games :: old(games[k].ConnectionOwner(connectionId)) == 0
      ensures hit.Some? ==> hit.value in games
      ensures hit.Some? && hit.value in games ==>
                var g := games[hit.value];
                (old(g.ConnectionOwner(connectionId)) == 1 ==>
                      g.player1 == old(g.player1).(connectionId := None) && g.player2 == old(g.player2))
                && (old(g.ConnectionOwner(connectionId)) == 2 ==>
                      g.player1 == old(g.player1) && g.player2 == Some(old(g.player2).value.(connectionId := None)))
                && old(g.ConnectionOwner(connectionId)) != 0
                && g.SameProgress()
      ensures forall k | k in games && Some(k) != hit :: unchanged(games[k])
    {
      hit := None;
      var remaining := games.Keys;
      while remaining != {}
        invariant remaining <= games.Keys
        invariant forall k | k in games && k !in remaining :: games[k].ConnectionOwner(connectionId) == 0
        invariant forall k | k in games :: unchanged(games[k])
        decreases remaining
      {
        var k :| k in remaining;
        var game := games[k];
        var seat := game.ConnectionOwner(connectionId);
        if seat != 0 {
          SetConnection(k, seat, None);
          hit := Some(k);
          return;
        }
        remaining := remaining - {k};
      }
    }

    /** Binds (or with None, clears) the connection of one seat of one match. */
    method SetConnection(k: string, seat: int, connectionId: Option<string>)
      requires Valid() && k in games
      requires seat == 1 || (seat == 2 && games[k].player2.Some?)
      modifies games[k]
      ensures Valid()
      ensures games[k].player1 == if seat == 1 then old(games[k].player1).(connectionId := connectionId)
                                  else old(games[k].player1)
      ensures games[k].player2 == if seat == 2 then Some(old(games[k].player2).value.(connectionId := connectionId))
                                  else old(games[k].player2)
      ensures games[k].SameProgress()
    {
      var game := games[k];
      if seat == 1 {
        game.player1 := game.player1.(connectionId := connectionId);
      } else {
        game.player2 := Some(game.player2.value.(connectionId := connectionId));
      }
      OnlyOneGameChanged(k);
    }

    /** The registry stays valid when one match changes and stays valid itself. */
    twostate lemma OnlyOneGameChanged(k: string)
      requires old(Valid()) && k in games && games == old(games)
      requires games[k].Valid()
      requires forall j | j in games && j != k :: unchanged(games[j]) && unchanged(games[j].grid)
      ensures Valid()
    {
    }
  }

  /**
   * Joining twice with the same session gives the same answer: the second
   * call is a reconnection to the seat the first one took (or the same
   * refusal).
   */
  method JoinIsIdempotent(m: TronGameManager, shortCode: string, playerName: string, sessionId: string,
                          connection1: string, connection2: string)
    returns (first: JoinOutcome, second: JoinOutcome)
    requires m.Valid()
    modifies if shortCode in m.games then {m.games[shortCode], m.games[shortCode].grid} else {}
    ensures m.Valid()
    ensures second == first
  {
    first := m.JoinGame(shortCode, playerName, sessionId, connection1);
    second := m.JoinGame(shortCode, playerName, sessionId, connection2);
  }
}
