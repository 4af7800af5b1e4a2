/**
 * The in-memory registry of artillery matches, keyed by short code.
 * Creating a match draws a fresh code (and, against the computer, seats
 * the computer at once); joining seats the second player or rebinds a
 * returning session's connection; a dropped connection is unbound from the
 * first seat that holds it.
 */
module PocketTanksManager {
  import opened Wrappers
  import ShortCodes
  import opened Numerics
  import opened Weapons
  import opened PocketTanks

  const GameNotFound: string := "Game not found."
  const JoinFailed: string := "Failed to join game."
  const GameFull: string := "Game is full or already in progress."

  /** What a join attempt reports: success, an error message, and the seat (0 on failure). */
  datatype JoinOutcome = JoinOutcome(success: bool, error: Option<string>, playerNumber: int)

  class TanksGameManager {
    var games: map<string, TanksGame>

    /** Every match is filed under its own code and keeps its invariants (its state, its shells, its ground). */
    ghost predicate Valid()
      reads this, games.Values
      reads set g, p | g in games.Values && p in g.projectiles :: p
      reads set g | g in games.Values :: g.terrain.heights
    {
      forall k | k in games :: games[k].shortCode == k && games[k].Valid() && games[k].ShellsOk() && games[k].Grounded()
    }

    constructor ()
      ensures Valid() && games == map[]
    {
      games := map[];
    }

    /**
     * Opens a match for its first player under a code not yet in use; a
     * match against the computer has the computer seated and counting
     * down straight away.
     */
    method CreateGame(playerName: string, sessionId: string, vsAi: bool, m: MathLib, offsets: seq<real>,
                      draws1: WeaponDraws, draws2: WeaponDraws, attempts: seq<seq<int>>, now: int)
      returns (r: Result<(string, string)>)
      requires Valid() && ShortCodes.ValidAttempts(attempts)
      requires |offsets| == 5 && Fair(draws1) && Fair(draws2)
      modifies this
      ensures Valid()
      ensures r.Failure? ==> games == old(games) && r.error == ShortCodes.ExhaustedMessage
      ensures r.Success? ==>
                var code := r.value.0;
                && r.value.1 == sessionId
                && ShortCodes.IsCode(code) && code !in old(games)
                && code in games && games == old(games)[code := games[code]]
                && fresh(games[code])
                && games[code].player1.sessionId == sessionId && games[code].player1.name == playerName
                && games[code].isAiGame == vsAi
                && (vsAi ==> games[code].status == Countdown && games[code].player2.Some?
                             && games[code].player2.value.name == "CPU")
                && (!vsAi ==> games[code].status == Waiting && games[code].player2.None?)
    {
      var code := ShortCodes.GenerateUniqueCode(games.Keys, attempts);
      if code.Failure? {
        return Failure(code.error);
      }
      var game := Open(code.value, playerName, sessionId, vsAi, m, offsets, draws1, draws2, now);
      games := games[code.value := game];
      OnlyOneGameChanged(code.value);
      return Success((code.value, sessionId));
    }

    /** A new match under `code`, with the computer seated in it when `vsAi`. */
    static method Open(code: string, playerName: string, sessionId: string, vsAi: bool, m: MathLib,
                       offsets: seq<real>, draws1: WeaponDraws, draws2: WeaponDraws, now: int)
      returns (game: TanksGame)
      requires |offsets| == 5 && Fair(draws1) && Fair(draws2)
      ensures fresh(game) && fresh(game.terrain) && fresh(game.terrain.heights) && game.projectiles == []
      ensures game.Valid() && game.ShellsOk() && game.Grounded() && game.shortCode == code
      ensures game.player1.sessionId == sessionId && game.player1.name == playerName
      ensures game.isAiGame == vsAi
      ensures vsAi ==> game.status == Countdown && game.player2.Some? && game.player2.value.name == "CPU"
      ensures !vsAi ==> game.status == Waiting && game.player2.None?
    {
      game := new TanksGame(code, playerName, sessionId, m, offsets, draws1, draws2, now);
      if vsAi {
        game.AddAiPlayer2();
      }
    }

    /**
     * A returning session gets its connection rebound to its seat; a new
     * session takes the second seat of a waiting match; anything else is
     * refused with the reason.
     */
    method JoinGame(shortCode: string, playerName: string, sessionId: string, connectionId: string)
      returns (r: JoinOutcome)
      requires Valid()
      modifies if shortCode in games then {games[shortCode]} else {}
      ensures Valid() && games == old(games)
      ensures shortCode !in games ==> r == JoinOutcome(false, Some(GameNotFound), 0)
      ensures shortCode in games ==>
                var g := games[shortCode];
                var seat := old(g.GetPlayerNumber(sessionId));
                && (seat == 1 ==>
                      && r == JoinOutcome(true, None, 1)
                      && g.player1 == old(g.player1).(connectionId := Some(connectionId))
                      && g.player2 == old(g.player2) && g.SameProgress())
                && (seat == 2 ==>
                      && r == JoinOutcome(true, None, 2)
                      && g.player1 == old(g.player1)
                      && g.player2 == Some(old(g.player2).value.(connectionId := Some(connectionId)))
                      && g.SameProgress())
                && (seat == 0 && old(g.status) == Waiting && old(g.player2).None? ==>
                      && r == JoinOutcome(true, None, 2)
                      && g.player2.Some? && g.player2.value.sessionId == sessionId
                      && g.player2.value.name == playerName && g.player2.value.connectionId == Some(connectionId)
                      && g.status == Countdown)
                && (seat == 0 && old(g.status) == Waiting && old(g.player2).Some? ==>
                      r == JoinOutcome(false, Some(JoinFailed), 0) && unchanged(g))
                && (seat == 0 && old(g.status) != Waiting ==>
                      r == JoinOutcome(false, Some(GameFull), 0) && unchanged(g))
                && (r.success ==> g.GetPlayerNumber(sessionId) == r.playerNumber)
    {
      if shortCode !in games {
        return JoinOutcome(false, Some(GameNotFound), 0);
      }
      var game := games[shortCode];
      if game.player1.sessionId == sessionId {
        SetConnection(shortCode, 1, Some(connectionId));
        return JoinOutcome(true, None, 1);
      }
      if game.player2.Some? && game.player2.value.sessionId == sessionId {
        SetConnection(shortCode, 2, Some(connectionId));
        return JoinOutcome(true, None, 2);
      }
      if game.status == Waiting {
        var added := game.AddPlayer2(playerName, sessionId, connectionId);
        OnlyOneGameChanged(shortCode);
        if added {
          return JoinOutcome(true, None, 2);
        }
        return JoinOutcome(false, Some(JoinFailed), 0);
      }
      return JoinOutcome(false, Some(GameFull), 0);
    }

    /** The match filed under a code, if any. */
    function GetGame(shortCode: string): (r: Option<TanksGame>)
      requires Valid()
      reads this, games.Values
      reads set g, p | g in games.Values && p in g.projectiles :: p
      reads set g | g in games.Values :: g.terrain.heights
      ensures r.Some? <==> shortCode in games
      ensures r.Some? ==> r.value.shortCode == shortCode && r.value.Valid() && r.value.ShellsOk() && r.value.Grounded()
    {
      if shortCode in games then Some(games[shortCode]) else None
    }

    /** Drops a code from the registry; other matches are untouched. */
    method RemoveGame(shortCode: string)
      requires Valid()
      modifies this
      ensures Valid()
      ensures games == old(games) - {shortCode}
    {
      games := games - {shortCode};
    }

    /** The matches the game loop drives: those counting down, choosing, aiming or firing. */
    function GetActiveGames(): (active: set<TanksGame>)
      reads this, games.Values
      ensures active <= games.Values
      ensures forall k | k in games :: games[k] in active <==> Active(games[k].status)
    {
      set g | g in games.Values && Active(g.status)
    }

    /**
     * Unbinds a dropped connection from the first seat (of the first match
     * visited) that holds it; `hit` names that match. The visiting order of
     * the dictionary is left open.
     */
    method HandleDisconnect(connectionId: string) returns (ghost hit: Option<string>)
      requires Valid()
      modifies games.Values
      ensures Valid() && games == old(games)
      ensures hit.None? ==> forall k | k in games :: old(games[k].ConnectionOwner(connectionId)) == 0
      ensures hit.Some? ==> hit.value in games
      ensures hit.Some? && hit.value in games ==>
                var g := games[hit.value];
                (old(g.ConnectionOwner(connectionId)) == 1 ==>
                      g.player1 == old(g.player1).(connectionId := None) && g.player2 == old(g.player2))
                && (old(g.ConnectionOwner(connectionId)) == 2 ==>
                      g.player1 == old(g.player1) && g.player2 == Some(old(g.player2).value.(connectionId := None)))
                && old(g.ConnectionOwner(connectionId)) != 0
                && g.SameProgress()
      ensures forall k | k in games && Some(k) != hit :: unchanged(games[k])
    {
      hit := None;
      var remaining := games.Keys;
      while remaining != {}
        invariant remaining <= games.Keys
        invariant forall k | k in games && k !in remaining :: games[k].ConnectionOwner(connectionId) == 0
        invariant forall k | k in games :: unchanged(games[k])
        decreases remaining
      {
        var k :| k in remaining;
        var game := games[k];
        var seat := game.ConnectionOwner(connectionId);
        if seat != 0 {
          SetConnection(k, seat, None);
          hit := Some(k);
          return;
        }
        remaining := remaining - {k};
      }
    }

    /** Binds (or with None, clears) the connection of one seat of one match. */
    method SetConnection(k: string, seat: int, connectionId: Option<string>)
      requires Valid() && k in games
      requires seat == 1 || (seat == 2 && games[k].player2.Some?)
      modifies games[k]
      ensures Valid()
      ensures games[k].player1 == if seat == 1 then old(games[k].player1).(connectionId := connectionId)
                                  else old(games[k].player1)
      ensures games[k].player2 == if seat == 2 then Some(old(games[k].player2).value.(connectionId := connectionId))
                                  else old(games[k].player2)
      ensures games[k].SameProgress()
    {
      var game := games[k];
      game.Bind(seat, connectionId);
      OnlyOneGameChanged(k);
    }

    /** The registry stays valid when one match changes and keeps its own invariants. */
    twostate lemma OnlyOneGameChanged(k: string)
      requires old(Valid()) && k in games && games == old(games)[k := games[k]]
      requires games[k].shortCode == k && games[k].Valid() && games[k].ShellsOk() && games[k].Grounded()
      requires forall j | j in games && j != k :: unchanged(games[j]) && unchanged(games[j].terrain.heights)
      requires forall j, p | j in games && j != k && p in games[j].projectiles :: unchanged(p)
      ensures Valid()
    {
    }
  }

  /**
   * Joining twice with the same session gives the same answer: the second
   * call is a reconnection to the seat the first one took (or the same
   * refusal).
   */
  method JoinIsIdempotent(m: TanksGameManager, shortCode: string, playerName: string, sessionId: string,
                          connection1: string, connection2: string)
    returns (first: JoinOutcome, second: JoinOutcome)
    requires m.Valid()
    modifies if shortCode in m.games then {m.games[shortCode]} else {}
    ensures m.Valid()
    ensures second == first
  {
    first := m.JoinGame(shortCode, playerName, sessionId, connection1);
    second := m.JoinGame(shortCode, playerName, sessionId, connection2);
  }
}
