/**
 * The in-memory registry of asteroid matches, keyed by short code.
 * Creating a match draws a fresh code; joining seats the second ship or
 * rebinds a returning session's connection; a dropped connection is
 * unbound from the first seat that holds it.
 */
module AsteroidsManager {
  import opened Wrappers
  import ShortCodes
  import opened Numerics
  import opened AsteroidObjects
  import opened AsteroidMatch

  const GameNotFound: string := "Game not found."
  const JoinFailed: string := "Failed to join game."
  const GameFull: string := "Game is full or already in progress."

  /** What a join attempt reports: success, an error message, and the seat (0 on failure). */
  datatype JoinOutcome = JoinOutcome(success: bool, error: Option<string>, playerNumber: int)

  /** The matches the game loop drives: those counting down or in play. */
  predicate Active(s: Status)
  {
    s == Countdown || s == InProgress
  }

  class AsteroidGameManager {
    var games: map<string, AsteroidGame>
    /** The floating-point library every match uses. */
    const math: MathLib
    /** The process-wide rock and bullet counters every match shares. */
    const ids: IdCounters

    /** Every match is filed under its own code, keeps its invariant and shares the counters. */
    ghost predicate Valid()
      reads this, games.Values
    {
      forall k | k in games :: games[k].shortCode == k && games[k].Valid() && games[k].ids == ids
    }

    constructor (math: MathLib, ids: IdCounters)
      ensures Valid() && games == map[] && this.math == math && this.ids == ids
    {
      games := map[];
      this.math := math;
      this.ids := ids;
    }

    /**
     * Opens a match for its first player under a code not yet in use,
     * waiting for its second player; `rng` is the new match's random source
     * and `sessionId` the session drawn for the creator.
     */
    method CreateGame(playerName: string, sessionId: string, rng: nat -> real, attempts: seq<seq<int>>, now: int)
      returns (r: Result<(string, string)>)
      requires Valid() && ShortCodes.ValidAttempts(attempts)
      modifies this
      ensures Valid()
      ensures r.Failure? ==> games == old(games) && r.error == ShortCodes.ExhaustedMessage
      ensures r.Success? ==>
                var code := r.value.0;
                && r.value.1 == sessionId
                && ShortCodes.IsCode(code) && code !in old(games)
                && code in games && games == old(games)[code := games[code]]
                && fresh(games[code])
                && games[code].player1.sessionId == sessionId && games[code].player1.name == playerName
                && games[code].status == Waiting && games[code].player2.None?
                && games[code].rng == rng && games[code].createdAt == now
    {
      var code := ShortCodes.GenerateUniqueCode(games.Keys, attempts);
      if code.Failure? {
        return Failure(code.error);
      }
      var game := new AsteroidGame(code.value, playerName, sessionId, rng, math, ids, now);
      games := games[code.value := game];
      return Success((code.value, sessionId));
    }

    /**
     * A returning session gets its connection rebound to its seat; a new
     * session takes the second seat of a waiting match; anything else is
     * refused with the reason.
     */
    method JoinGame(shortCode: string, playerName: string, sessionId: string, connectionId: string)
      returns (r: JoinOutcome)
      requires Valid()
      modifies if shortCode in games then {games[shortCode]} else {}
      ensures Valid() && games == old(games)
      ensures shortCode !in games ==> r == JoinOutcome(false, Some(GameNotFound), 0)
      ensures shortCode in games ==>
                var g := games[shortCode];
                var seat := old(g.GetPlayerNumber(sessionId));
                && (seat == 1 ==>
                      && r == JoinOutcome(true, None, 1)
                      && g.player1 == old(g.player1).(connectionId := Some(connectionId))
                      && g.player2 == old(g.player2) && g.SameProgress())
                && (seat == 2 ==>
                      && r == JoinOutcome(true, None, 2)
                      && g.player1 == old(g.player1)
                      && g.player2 == Some(old(g.player2).value.(connectionId := Some(connectionId)))
                      && g.SameProgress())
                && (seat == 0 && old(g.status) == Waiting ==>
                      && r == JoinOutcome(true, None, 2)
                      && g.player2.Some? && g.player2.value.sessionId == sessionId
                      && g.player2.value.name == playerName && g.player2.value.connectionId == Some(connectionId)
                      && g.status == Countdown && g.countdownTicks == CountdownDurationTicks)
                && (seat == 0 && old(g.status) != Waiting ==>
                      r == JoinOutcome(false, Some(GameFull), 0) && unchanged(g))
                && (r.success ==> g.GetPlayerNumber(sessionId) == r.playerNumber)
    {
      if shortCode !in games {
        return JoinOutcome(false, Some(GameNotFound), 0);
      }
      var game := games[shortCode];
      if game.player1.sessionId == sessionId {
        SetConnection(shortCode, 1, Some(connectionId));
        return JoinOutcome(true, None, 1);
      }
      if game.player2.Some? && game.player2.value.sessionId == sessionId {
        SetConnection(shortCode, 2, Some(connectionId));
        return JoinOutcome(true, None, 2);
      }
      if game.status == Waiting {
        var added := game.AddPlayer2(playerName, sessionId, connectionId);
        OnlyOneGameChanged(shortCode);
        if added {
          return JoinOutcome(true, None, 2);
        }
        return JoinOutcome(false, Some(JoinFailed), 0);
      }
      return JoinOutcome(false, Some(GameFull), 0);
    }

    /** The match filed under a code, if any. */
    function GetGame(shortCode: string): (r: Option<AsteroidGame>)
      requires Valid()
      reads this, games.Values
      ensures r.Some? <==> shortCode in games
      ensures r.Some? ==> r.value.shortCode == shortCode && r.value.Valid() && r.value.ids == ids
    {
      if shortCode in games then Some(games[shortCode]) else None
    }

    /** Drops a code from the registry; other matches are untouched. */
    method RemoveGame(shortCode: string)
      requires Valid()
      modifies this
      ensures Valid()
      ensures games == old(games) - {shortCode}
    {
      games := games - {shortCode};
    }

    /** The matches the game loop drives: those counting down or in play. */
    function GetActiveGames(): (active: set<AsteroidGame>)
      reads this, games.Values
      ensures active <= games.Values
      ensures forall k | k in games :: games[k] in active <==> Active(games[k].status)
    {
      set g | g in games.Values && Active(g.status)
    }

    /**
     * Unbinds a dropped connection from the first seat (of the first match
     * visited) that holds it; `hit` names that match. The visiting order of
     * the dictionary is left open.
     */
    method HandleDisconnect(connectionId: string) returns (ghost hit: Option<string>)
      requires Valid()
      modifies games.Values
      ensures Valid() && games == old(games)
      ensures hit.None? ==> forall k | k in games :: old(games[k].ConnectionOwner(connectionId)) == 0
      ensures hit.Some? ==> hit.value in games
      ensures hit.Some? && hit.value in games ==>
                var g := games[hit.value];
                (old(g.ConnectionOwner(connectionId)) == 1 ==>
                      g.player1 == old(g.player1).(connectionId := None) && g.player2 == old(g.player2))
                && (old(g.ConnectionOwner(connectionId)) == 2 ==>
                      g.player1 == old(g.player1) && g.player2 == Some(old(g.player2).value.(connectionId := None)))
                && old(g.ConnectionOwner(connectionId)) != 0
                && g.SameProgress()
      ensures forall k | k in games && Some(k) != hit :: unchanged(games[k])
    {
      hit := None;
      var remaining := games.Keys;
      while remaining != {}
        invariant remaining <= games.Keys
        invariant forall k | k in games && k !in remaining :: games[k].ConnectionOwner(connectionId) == 0
        invariant forall k | k in games :: unchanged(games[k])
        decreases remaining
      {
        var k :| k in remaining;
        var game := games[k];
        var seat := game.ConnectionOwner(connectionId);
        if seat != 0 {
          SetConnection(k, seat, None);
          hit := Some(k);
          return;
        }
        remaining := remaining - {k};
      }
    }

    /** Binds (or with None, clears) the connection of one seat of one match. */
    method SetConnection(k: string, seat: int, connectionId: Option<string>)
      requires Valid() && k in games
      requires seat == 1 || (seat == 2 && games[k].player2.Some?)
      modifies games[k]
      ensures Valid()
      ensures games[k].player1 == if seat == 1 then old(games[k].player1).(connectionId := connectionId)
                                  else old(games[k].player1)
      ensures games[k].player2 == if seat == 2 then Some(old(games[k].player2).value.(connectionId := connectionId))
                                  else old(games[k].player2)
      ensures games[k].SameProgress()
    {
      var game := games[k];
      game.Bind(seat, connectionId);
      OnlyOneGameChanged(k);
    }

    /** The registry stays valid when one match changes and keeps its own invariant. */
    twostate lemma OnlyOneGameChanged(k: string)
      requires old(Valid()) && k in games && games == old(games)[k := games[k]]
      requires games[k].shortCode == k && games[k].Valid() && games[k].ids == ids
      requires forall j | j in games && j != k :: unchanged(games[j])
      ensures Valid()
    {
    }
  }

  /**
   * Joining twice with the same session gives the same answer: the second
   * call is a reconnection to the seat the first one took (or the same
   * refusal).
   */
  method JoinIsIdempotent(m: AsteroidGameManager, shortCode: string, playerName: string, sessionId: string,
                          connection1: string, connection2: string)
    returns (first: JoinOutcome, second: JoinOutcome)
    requires m.Valid()
    modifies if shortCode in m.games then {m.games[shortCode]} else {}
    ensures m.Valid()
    ensures second == first
  {
    first := m.JoinGame(shortCode, playerName, sessionId, connection1);
    second := m.JoinGame(shortCode, playerName, sessionId, connection2);
  }
}
