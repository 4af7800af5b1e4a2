/**
 * Tic-tac-toe: matches are rows of a database table keyed by short code.
 * The board is a nine-character string of ' ', 'X' and 'O' in row-major
 * order; X opens, turns alternate, and a match ends on the first completed
 * line or on the ninth move. Every service call reads a row, checks it,
 * and saves the updated row in one step.
 */
module TicTacToe {
  import opened Wrappers
  import ShortCodes

  datatype Status = Waiting | InProgress | XWins | OWins | Draw | Abandoned

  /** The enum's stored integer value; the service compares statuses by it. */
  function Ordinal(s: Status): (n: int)
    ensures 0 <= n <= 5
    ensures n >= 2 <==> s == XWins || s == OWins || s == Draw || s == Abandoned
  {
    match s
    case Waiting => 0
    case InProgress => 1
    case XWins => 2
    case OWins => 3
    case Draw => 4
    case Abandoned => 5
  }

  /** Statuses at or past XWins: the match is over. */
  predicate IsOver(s: Status) {
    Ordinal(s) >= Ordinal(XWins)
  }

  const EmptyBoard: string := "         "

  const WinPatterns: seq<seq<int>> :=
    [[0, 1, 2], [3, 4, 5], [6, 7, 8],
     [0, 3, 6], [1, 4, 7], [2, 5, 8],
     [0, 4, 8], [2, 4, 6]]

  /** Three distinct cells of the 3 x 3 board. */
  predicate IsPattern(p: seq<int>) {
    |p| == 3 && (forall j :: 0 <= j < 3 ==> 0 <= p[j] < 9) && p[0] != p[1] && p[1] != p[2] && p[0] != p[2]
  }

  /** The eight winning lines: three rows, three columns, two diagonals. */
  lemma PatternsAreLines()
    ensures |WinPatterns| == 8
    ensures forall k :: 0 <= k < 8 ==> IsPattern(WinPatterns[k])
    ensures WinPatterns[..3] == seq(3, r => [3 * r, 3 * r + 1, 3 * r + 2])
    ensures WinPatterns[3..6] == seq(3, c => [c, c + 3, c + 6])
    ensures WinPatterns[6..] == [[0, 4, 8], [2, 4, 6]]
  {
  }

  /** `m` occupies all three cells of `p`. */
  predicate Completes(b: string, p: seq<int>, m: char)
    requires |b| == 9 && IsPattern(p)
  {
    b[p[0]] == m && b[p[1]] == m && b[p[2]] == m
  }

  /** `m` holds winning line number `k` of `b`. */
  predicate LineAt(b: string, k: int, m: char)
    requires |b| == 9 && 0 <= k < |WinPatterns|
  {
    PatternsAreLines();
    Completes(b, WinPatterns[k], m)
  }

  /** `m` holds some winning line of `b`. */
  predicate HasLine(b: string, m: char)
    requires |b| == 9
  {
    exists k :: 0 <= k < |WinPatterns| && LineAt(b, k, m)
  }

  /** The first winning line (in table order, from index `k`) that `m` completes. */
  function LineFrom(b: string, m: char, k: nat): (r: Option<seq<int>>)
    requires |b| == 9 && k <= |WinPatterns|
    ensures r.Some? ==> exists i :: k <= i < |WinPatterns| && r.value == WinPatterns[i]
                                    && LineAt(b, i, m)
                                    && forall j :: k <= j < i ==> !LineAt(b, j, m)
    ensures r.None? <==> forall i :: k <= i < |WinPatterns| ==> !LineAt(b, i, m)
    decreases |WinPatterns| - k
  {
    PatternsAreLines();
    if k == |WinPatterns| then None
    else if LineAt(b, k, m) then Some(WinPatterns[k])
    else LineFrom(b, m, k + 1)
  }

  /** The line CheckWin reports: the first completed one, or None exactly when `m` has no line. */
  function FirstLine(b: string, m: char): (r: Option<seq<int>>)
    requires |b| == 9
    ensures r.None? <==> !HasLine(b, m)
    ensures r.Some? ==> r.value in WinPatterns && IsPattern(r.value) && Completes(b, r.value, m)
  {
    PatternsAreLines();
    LineFrom(b, m, 0)
  }

  /** Number of cells of `s` holding `c`. */
  function Count(s: string, c: char): (n: nat)
    ensures n <= |s|
  {
    if s == [] then 0 else (if s[0] == c then 1 else 0) + Count(s[1..], c)
  }

  /** Writing `m` over cell `i` changes the count of `c` by what left and what arrived. */
  lemma {:induction false} CountUpdate(s: string, i: int, m: char, c: char)
    requires 0 <= i < |s|
    ensures Count(s[i := m], c) == Count(s, c) - (if s[i] == c then 1 else 0) + (if m == c then 1 else 0)
    decreases |s|
  {
    if i > 0 {
      CountUpdate(s[1..], i - 1, m, c);
      assert s[i := m][1..] == s[1..][i - 1 := m];
    } else {
      assert s[i := m][1..] == s[1..];
    }
  }

  /** The other player's mark. */
  function Other(m: char): char {
    if m == 'X' then 'O' else 'X'
  }


  /** A mark written over a blank never gives the other player a line. */
  lemma NoLineForOther(b: string, position: int, m: char, o: char)
    requires |b| == 9 && 0 <= position < 9 && b[position] == ' ' && m != o
    requires HasLine(b[position := m], o)
    ensures HasLine(b, o)
  {
    PatternsAreLines();
    var k :| 0 <= k < |WinPatterns| && LineAt(b[position := m], k, o);
    assert LineAt(b, k, o);
  }

  /** Blanks, crosses and noughts together fit on the board. */
  lemma {:induction false} CountsShareBoard(s: string)
    ensures Count(s, 'X') + Count(s, 'O') + Count(s, ' ') <= |s|
  {
    if s != [] {
      CountsShareBoard(s[1..]);
    }
  }

  /** The empty board holds no marks and no lines. */
  lemma EmptyBoardIsBlank()
    ensures |EmptyBoard| == 9
    ensures Count(EmptyBoard, 'X') == 0 && Count(EmptyBoard, 'O') == 0
    ensures !HasLine(EmptyBoard, 'X') && !HasLine(EmptyBoard, 'O')
  {
    assert EmptyBoard[1..] == "        " && EmptyBoard[2..] == "       " && EmptyBoard[3..] == "      ";
    assert EmptyBoard[4..] == "     " && EmptyBoard[5..] == "    " && EmptyBoard[6..] == "   ";
    assert EmptyBoard[7..] == "  " && EmptyBoard[8..] == " " && EmptyBoard[9..] == "";
    PatternsAreLines();
  }

  /** Scans the winning lines in table order for one `mark` completes. */
  method CheckWin(board: array<char>, mark: char) returns (line: Option<seq<int>>)
    requires board.Length == 9
    ensures line == FirstLine(board[..], mark)
  {
    PatternsAreLines();
    for k := 0 to |WinPatterns|
      invariant LineFrom(board[..], mark, 0) == LineFrom(board[..], mark, k)
    {
      var pattern := WinPatterns[k];
      if board[pattern[0]] == mark && board[pattern[1]] == mark && board[pattern[2]] == mark {
        return Some(pattern);
      }
    }
    return None;
  }

  /** The status a move of `m` leads to on the board it leaves after `moves` moves. */
  function Settled(b: string, m: char, moves: int): (s: Status)
    requires |b| == 9
    ensures s == XWins || s == OWins ==> HasLine(b, m) && s == (if m == 'X' then XWins else OWins)
    ensures s == Draw <==> !HasLine(b, m) && moves >= 9
    ensures s == InProgress <==> !HasLine(b, m) && moves < 9
  {
    if HasLine(b, m) then (if m == 'X' then XWins else OWins)
    else if moves >= 9 then Draw
    else InProgress
  }

  /**
   * One row of the Games table, held in memory. Times are caller-supplied
   * ticks; the row's database id and concurrency token are not modelled.
   */
  class Game {
    const shortCode: string
    const createdAt: int
    var board: string
    var status: Status
    var currentTurn: char
    var xConnectionId: Option<string>
    var oConnectionId: Option<string>
    var xSessionId: Option<string>
    var oSessionId: Option<string>
    var updatedAt: int
    var completedAt: Option<int>
    var moveCount: int

    /**
     * The row invariant the service maintains. The board holds only blanks
     * and marks, the move counter counts the marks, X is never behind O and
     * never more than one ahead; in a live match it is X's turn exactly when
     * the counts are level and nobody has a line yet; XWins, OWins and Draw
     * mean what they say; a match abandoned by the cleanup was waiting or
     * running when it was stopped; a finished match has a completion time.
     */
    ghost predicate Valid()
      reads this
    {
      && |board| == 9
      && (forall i :: 0 <= i < 9 ==> board[i] == ' ' || board[i] == 'X' || board[i] == 'O')
      && var x, o := Count(board, 'X'), Count(board, 'O');
      && moveCount == x + o
      && (x == o || x == o + 1)
      && xSessionId.Some?
      && (status == Waiting ==> moveCount == 0 && oSessionId.None?)
      && (status == InProgress || status == XWins || status == OWins || status == Draw ==> oSessionId.Some?)
      && (status == Waiting || status == InProgress ==>
            && currentTurn == (if x == o then 'X' else 'O')
            && !HasLine(board, 'X') && !HasLine(board, 'O')
            && moveCount < 9
            && completedAt.None?)
      && (status == XWins ==> HasLine(board, 'X') && !HasLine(board, 'O') && x == o + 1)
      && (status == OWins ==> HasLine(board, 'O') && !HasLine(board, 'X') && x == o)
      && (status == Draw ==> moveCount == 9 && !HasLine(board, 'X') && !HasLine(board, 'O'))
      && (status == Abandoned ==> moveCount < 9 && !HasLine(board, 'X') && !HasLine(board, 'O'))
      && (IsOver(status) ==> completedAt.Some?)
    }

    /**
     * The cleanup's verdict on a stale row: a waiting or running match is
     * marked Abandoned with a completion time, and nothing else changes.
     */
    method Abandon(now: int)
      requires Valid() && (status == Waiting || status == InProgress)
      modifies this`status, this`completedAt
      ensures Valid() && status == Abandoned && IsOver(status) && completedAt == Some(now)
    {
      status := Abandoned;
      completedAt := Some(now);
    }

    /** A waiting row with an empty board, X to move, seat X held by `sessionId`. */
    constructor (shortCode: string, sessionId: string, now: int)
      ensures Valid()
      ensures this.shortCode == shortCode && createdAt == now && updatedAt == now
      ensures board == EmptyBoard && status == Waiting && currentTurn == 'X' && moveCount == 0
      ensures xSessionId == Some(sessionId) && oSessionId.None?
      ensures xConnectionId.None? && oConnectionId.None? && completedAt.None?
    {
      this.shortCode := shortCode;
      createdAt := now;
      board := EmptyBoard;
      status := Waiting;
      currentTurn := 'X';
      xConnectionId := None;
      oConnectionId := None;
      xSessionId := Some(sessionId);
      oSessionId := None;
      updatedAt := now;
      completedAt := None;
      moveCount := 0;
      EmptyBoardIsBlank();
    }

    /** The mark of the seat bound to a connection, X first. */
    function MoverMark(connectionId: string): (m: Option<char>)
      reads this
      ensures m.Some? <==> xConnectionId == Some(connectionId) || oConnectionId == Some(connectionId)
      ensures m == Some('X') <==> xConnectionId == Some(connectionId)
    {
      if xConnectionId == Some(connectionId) then Some('X')
      else if oConnectionId == Some(connectionId) then Some('O')
      else None
    }

    /** Why a move on this row is refused, in the order the service checks; None when it is legal. */
    function Rejection(position: int, connectionId: string): (e: Option<string>)
      requires 0 <= position < 9 && |board| == 9
      reads this
      ensures e.None? <==> && status == InProgress
                           && MoverMark(connectionId) == Some(currentTurn)
                           && board[position] == ' '
    {
      if status != InProgress then Some("Game is not in progress.")
      else if MoverMark(connectionId).None? then Some("You are not a player in this game.")
      else if currentTurn != MoverMark(connectionId).value then Some("It's not your turn.")
      else if board[position] != ' ' then Some("Cell is already occupied.")
      else None
    }

    /** Rebinding connections (and touching the update time) keeps the row invariant. */
    twostate lemma RebindKeepsValid()
      requires old(Valid()) && unchanged(this`board, this`status, this`currentTurn, this`moveCount, this`completedAt)
      requires xSessionId == old(xSessionId) && oSessionId == old(oSessionId)
      ensures Valid()
    {
    }

    /** Seating O in a waiting match starts it with the row invariant intact. */
    twostate lemma SeatingKeepsValid()
      requires old(Valid()) && old(status) == Waiting && status == InProgress
      requires board == old(board) && currentTurn == old(currentTurn)
      requires moveCount == old(moveCount) && completedAt == old(completedAt)
      requires xSessionId == old(xSessionId) && oSessionId.Some?
      ensures Valid()
    {
    }

    /**
     * A legal move keeps the row invariant: the counts stay in step with
     * the alternating turn, the winner is the player who just moved, and the
     * ninth move without a line is a draw.
     */
    twostate lemma PlacedKeepsValid(position: int)
      requires old(Valid()) && old(status) == InProgress
      requires 0 <= position < 9 && old(board)[position] == ' '
      requires board == old(board)[position := old(currentTurn)] && moveCount == old(moveCount) + 1
      requires status == Settled(board, old(currentTurn), moveCount)
      requires currentTurn == (if status == InProgress then Other(old(currentTurn)) else old(currentTurn))
      requires completedAt.None? <==> status == InProgress
      requires unchanged(this`xConnectionId, this`oConnectionId, this`xSessionId, this`oSessionId)
      ensures Valid()
    {
      var m := old(currentTurn);
      CountUpdate(old(board), position, m, 'X');
      CountUpdate(old(board), position, m, 'O');
      if HasLine(board, Other(m)) {
        NoLineForOther(old(board), position, m, Other(m));
      }
    }
  }

  /** A valid row never has more than nine moves, and a running one fewer than nine. */
  lemma MovesAreBounded(g: Game)
    requires g.Valid()
    ensures 0 <= g.moveCount <= 9
    ensures g.status == InProgress ==> g.moveCount < 9
  {
    CountsShareBoard(g.board);
  }

  /** What a join reports: success, the seat's mark, an error, and the row. */
  datatype JoinResult = JoinResult(success: bool, mark: Option<char>, error: Option<string>, game: Option<Game>)

  /** What a move reports: success, an error, the saved row, and the completed line. */
  datatype MoveResult = MoveResult(success: bool, error: Option<string>, game: Option<Game>, winLine: Option<seq<int>>)

  class GameService {
    var games: map<string, Game>

    /** Every row is filed under its own code and keeps the row invariant. */
    ghost predicate Valid()
      reads this, games.Values
    {
      forall k | k in games :: games[k].shortCode == k && games[k].Valid()
    }

    constructor ()
      ensures Valid() && games == map[]
    {
      games := map[];
    }

    /** The table stays valid when one row changes and stays valid itself. */
    twostate lemma OnlyOneGameChanged(k: string)
      requires old(Valid()) && k in games && games == old(games)
      requires games[k].Valid()
      requires forall j | j in games && j != k :: unchanged(games[j])
      ensures Valid()
    {
    }

    /** Stores a waiting row for player X under a code not yet in the table. */
    method CreateGame(sessionId: string, attempts: seq<seq<int>>, now: int) returns (r: Result<(string, string)>)
      requires Valid() && ShortCodes.ValidAttempts(attempts)
      modifies this
      ensures Valid()
      ensures r.Failure? ==> games == old(games) && r.error == ShortCodes.ExhaustedMessage
      ensures r.Success? ==>
                var code := r.value.0;
                && r.value.1 == sessionId && ShortCodes.IsCode(code) && code !in old(games)
                && code in games && games == old(games)[code := games[code]] && fresh(games[code])
                && games[code].board == EmptyBoard && games[code].status == Waiting
                && games[code].currentTurn == 'X' && games[code].moveCount == 0
                && games[code].xSessionId == Some(sessionId) && games[code].oSessionId.None?
    {
      var code := ShortCodes.GenerateUniqueCode(games.Keys, attempts);
      if code.Failure? {
        return Failure(code.error);
      }
      var game := new Game(code.value, sessionId, now);
      games := games[code.value := game];
      return Success((code.value, sessionId));
    }

    /** The row filed under a code, if any. */
    function GetGameByCode(shortCode: string): (r: Option<Game>)
      requires Valid()
      reads this, games.Values
      ensures r.Some? <==> shortCode in games
      ensures r.Some? ==> r.value.shortCode == shortCode && r.value.Valid()
    {
      if shortCode in games then Some(games[shortCode]) else None
    }

    /**
     * A returning session rebinds its seat's connection; a new session
     * takes seat O of a waiting match, which starts it; finished and full
     * matches refuse, reconnections included.
     */
    method JoinGame(shortCode: string, sessionId: string, connectionId: string, now: int) returns (r: JoinResult)
      requires Valid()
      modifies if shortCode in games then {games[shortCode]} else {}
      ensures Valid() && games == old(games)
      ensures shortCode !in games ==> r == JoinResult(false, None, Some("Game not found."), None)
      ensures shortCode in games && IsOver(old(games[shortCode].status)) ==>
                r == JoinResult(false, None, Some("Game is already over."), None) && unchanged(games[shortCode])
      ensures shortCode in games && !IsOver(old(games[shortCode].status))
              && old(games[shortCode].xSessionId) == Some(sessionId) ==>
                var g: Game := games[shortCode];
                && r == JoinResult(true, Some('X'), None, Some(g)) && unchanged(g`board, g`status, g`currentTurn, g`moveCount, g`completedAt) && g.updatedAt == now
                && g.xConnectionId == Some(connectionId) && g.oConnectionId == old(g.oConnectionId)
                && g.xSessionId == old(g.xSessionId) && g.oSessionId == old(g.oSessionId)
      ensures shortCode in games && !IsOver(old(games[shortCode].status))
              && old(games[shortCode].xSessionId) != Some(sessionId)
              && old(games[shortCode].oSessionId) == Some(sessionId) ==>
                var g: Game := games[shortCode];
                && r == JoinResult(true, Some('O'), None, Some(g)) && unchanged(g`board, g`status, g`currentTurn, g`moveCount, g`completedAt) && g.updatedAt == now
                && g.xConnectionId == old(g.xConnectionId) && g.oConnectionId == Some(connectionId)
                && g.xSessionId == old(g.xSessionId) && g.oSessionId == old(g.oSessionId)
      ensures shortCode in games && !IsOver(old(games[shortCode].status))
              && old(games[shortCode].xSessionId) != Some(sessionId)
              && old(games[shortCode].status) == Waiting && old(games[shortCode].oSessionId).None? ==>
                var g: Game := games[shortCode];
                && r == JoinResult(true, Some('O'), None, Some(g))
                && g.status == InProgress && g.updatedAt == now
                && g.oSessionId == Some(sessionId) && g.oConnectionId == Some(connectionId)
                && g.xSessionId == old(g.xSessionId) && g.xConnectionId == old(g.xConnectionId)
                && g.board == old(g.board) && g.currentTurn == old(g.currentTurn)
                && g.moveCount == old(g.moveCount) && g.completedAt == old(g.completedAt)
      ensures shortCode in games && !IsOver(old(games[shortCode].status))
              && old(games[shortCode].xSessionId) != Some(sessionId)
              && old(games[shortCode].oSessionId) != Some(sessionId)
              && !(old(games[shortCode].status) == Waiting && old(games[shortCode].oSessionId).None?) ==>
                r == JoinResult(false, None, Some("Game is full."), None) && unchanged(games[shortCode])
    {
      if shortCode !in games {
        return JoinResult(false, None, Some("Game not found."), None);
      }
      r := JoinRow(games[shortCode], sessionId, connectionId, now);
      OnlyOneGameChanged(shortCode);
    }

    /** JoinGame once the row is found: the status check, reconnection and seating. */
    static method JoinRow(g: Game, sessionId: string, connectionId: string, now: int) returns (r: JoinResult)
      requires g.Valid()
      modifies g
      ensures g.Valid()
      ensures IsOver(old(g.status)) ==>
                r == JoinResult(false, None, Some("Game is already over."), None) && unchanged(g)
      ensures !IsOver(old(g.status))
              && old(g.xSessionId) == Some(sessionId) ==>
                && r == JoinResult(true, Some('X'), None, Some(g)) && unchanged(g`board, g`status, g`currentTurn, g`moveCount, g`completedAt) && g.updatedAt == now
                && g.xConnectionId == Some(connectionId) && g.oConnectionId == old(g.oConnectionId)
                && g.xSessionId == old(g.xSessionId) && g.oSessionId == old(g.oSessionId)
      ensures !IsOver(old(g.status))
              && old(g.xSessionId) != Some(sessionId)
              && old(g.oSessionId) == Some(sessionId) ==>
                && r == JoinResult(true, Some('O'), None, Some(g)) && unchanged(g`board, g`status, g`currentTurn, g`moveCount, g`completedAt) && g.updatedAt == now
                && g.xConnectionId == old(g.xConnectionId) && g.oConnectionId == Some(connectionId)
                && g.xSessionId == old(g.xSessionId) && g.oSessionId == old(g.oSessionId)
      ensures !IsOver(old(g.status))
              && old(g.xSessionId) != Some(sessionId)
              && old(g.status) == Waiting && old(g.oSessionId).None? ==>
                && r == JoinResult(true, Some('O'), None, Some(g))
                && g.status == InProgress && g.updatedAt == now
                && g.oSessionId == Some(sessionId) && g.oConnectionId == Some(connectionId)
                && g.xSessionId == old(g.xSessionId) && g.xConnectionId == old(g.xConnectionId)
                && g.board == old(g.board) && g.currentTurn == old(g.currentTurn)
                && g.moveCount == old(g.moveCount) && g.completedAt == old(g.completedAt)
      ensures !IsOver(old(g.status))
              && old(g.xSessionId) != Some(sessionId)
              && old(g.oSessionId) != Some(sessionId)
              && !(old(g.status) == Waiting && old(g.oSessionId).None?) ==>
                r == JoinResult(false, None, Some("Game is full."), None) && unchanged(g)
    {
      if Ordinal(g.status) >= Ordinal(XWins) {
        return JoinResult(false, None, Some("Game is already over."), None);
      }
      if g.xSessionId == Some(sessionId) {
        Rebind(g, 'X', Some(connectionId), now);
        return JoinResult(true, Some('X'), None, Some(g));
      }
      if g.oSessionId == Some(sessionId) {
        Rebind(g, 'O', Some(connectionId), now);
        return JoinResult(true, Some('O'), None, Some(g));
      }
      if g.status == Waiting && g.oSessionId.None? {
        g.oSessionId := Some(sessionId);
        g.oConnectionId := Some(connectionId);
        g.status := InProgress;
        g.updatedAt := now;
        g.SeatingKeepsValid();
        return JoinResult(true, Some('O'), None, Some(g));
      }
      return JoinResult(false, None, Some("Game is full."), None);
    }

    /**
     * Validates a move in the service's order and, when legal, writes the
     * mover's mark into the one blank cell, counts the move, and ends the
     * match on a completed line (reported back) or on the ninth move,
     * otherwise passing the turn.
     */
    method MakeMove(shortCode: string, position: int, connectionId: string, now: int) returns (r: MoveResult)
      requires Valid()
      modifies if shortCode in games then {games[shortCode]} else {}
      ensures Valid() && games == old(games)
      ensures position < 0 || position > 8 ==> r == MoveResult(false, Some("Invalid position."), None, None)
      ensures 0 <= position <= 8 && shortCode !in games ==>
                r == MoveResult(false, Some("Game not found."), None, None)
      ensures 0 <= position <= 8 && shortCode in games ==>
                var g: Game := games[shortCode];
                var e := old(g.Rejection(position, connectionId));
                && (e.Some? ==> r == MoveResult(false, e, None, None) && unchanged(g))
                && (e.None? ==>
                      var m := old(g.currentTurn);
                      && g.board == old(g.board)[position := m]
                      && g.moveCount == old(g.moveCount) + 1 && g.updatedAt == now
                      && g.status == Settled(g.board, m, g.moveCount)
                      && g.currentTurn == (if g.status == InProgress then Other(m) else m)
                      && g.completedAt == (if g.status == InProgress then None else Some(now))
                      && unchanged(g`xConnectionId, g`oConnectionId, g`xSessionId, g`oSessionId)
                      && r == MoveResult(true, None, Some(g), FirstLine(g.board, m)))
    {
      if position < 0 || position > 8 {
        return MoveResult(false, Some("Invalid position."), None, None);
      }
      if shortCode !in games {
        return MoveResult(false, Some("Game not found."), None, None);
      }
      var game := games[shortCode];
      if game.status != InProgress {
        return MoveResult(false, Some("Game is not in progress."), None, None);
      }
      var playerMark: char;
      if game.xConnectionId == Some(connectionId) {
        playerMark := 'X';
      } else if game.oConnectionId == Some(connectionId) {
        playerMark := 'O';
      } else {
        return MoveResult(false, Some("You are not a player in this game."), None, None);
      }
      if game.currentTurn != playerMark {
        return MoveResult(false, Some("It's not your turn."), None, None);
      }
      if game.board[position] != ' ' {
        return MoveResult(false, Some("Cell is already occupied."), None, None);
      }
      var board := MarkedCopy(game.board, position, playerMark);
      var winLine := CheckWin(board, playerMark);
      ApplyMove(game, board[..], winLine.Some?, playerMark, now);
      game.PlacedKeepsValid(position);
      OnlyOneGameChanged(shortCode);
      return MoveResult(true, None, Some(game), winLine);
    }

    /** Saves the marked board and settles the match, as MakeMove does once it knows whether the mover won. */
    static method ApplyMove(game: Game, cells: string, won: bool, playerMark: char, now: int)
      modifies game
      ensures game.board == cells
      ensures game.moveCount == old(game.moveCount) + 1 && game.updatedAt == now
      ensures game.status == (if won then (if playerMark == 'X' then XWins else OWins)
                              else if game.moveCount >= 9 then Draw else InProgress)
      ensures game.currentTurn == (if game.status == InProgress then Other(playerMark) else old(game.currentTurn))
      ensures game.completedAt == (if game.status == InProgress then old(game.completedAt) else Some(now))
      ensures unchanged(game`xConnectionId, game`oConnectionId, game`xSessionId, game`oSessionId)
    {
      var moves := game.moveCount + 1;
      var status := if won then (if playerMark == 'X' then XWins else OWins)
                    else if moves >= 9 then Draw else InProgress;
      game.board, game.moveCount, game.updatedAt, game.status := cells, moves, now, status;
      if status == InProgress {
        game.currentTurn := if playerMark == 'X' then 'O' else 'X';
      } else {
        game.completedAt := Some(now);
      }
    }

    /** Binds (or with None, clears) one seat's connection and stamps the update time. */
    static method Rebind(game: Game, seat: char, connectionId: Option<string>, now: int)
      requires game.Valid()
      modifies game
      ensures game.Valid() && unchanged(game`board, game`status, game`currentTurn, game`moveCount, game`completedAt) && game.updatedAt == now
      ensures game.xSessionId == old(game.xSessionId) && game.oSessionId == old(game.oSessionId)
      ensures game.xConnectionId == if seat == 'X' then connectionId else old(game.xConnectionId)
      ensures game.oConnectionId == if seat == 'X' then old(game.oConnectionId) else connectionId
    {
      if seat == 'X' {
        game.xConnectionId := connectionId;
      } else {
        game.oConnectionId := connectionId;
      }
      game.updatedAt := now;
      game.RebindKeepsValid();
    }

    /** The board as a fresh character array with `mark` written at `position`. */
    static method MarkedCopy(cells: string, position: int, mark: char) returns (board: array<char>)
      requires |cells| == 9 && 0 <= position < 9
      ensures fresh(board) && board[..] == cells[position := mark]
    {
      board := new char[9](i requires 0 <= i < 9 => cells[i]);
      board[position] := mark;
    }

    /**
     * Clears a dropped connection from one row that holds it (seat X
     * first); which row, when several do, is the database's choice, and
     * `hit` names it.
     */
    method HandleDisconnect(connectionId: string, now: int) returns (ghost hit: Option<string>)
      requires Valid()
      modifies games.Values
      ensures Valid() && games == old(games)
      ensures hit.None? ==> forall k | k in games :: old(games[k].MoverMark(connectionId)).None?
      ensures hit.Some? ==> hit.value in games
      ensures hit.Some? && hit.value in games ==>
                var g: Game := games[hit.value];
                && old(g.MoverMark(connectionId)).Some?
                && unchanged(g`board, g`status, g`currentTurn, g`moveCount, g`completedAt) && g.updatedAt == now
                && g.xSessionId == old(g.xSessionId) && g.oSessionId == old(g.oSessionId)
                && (old(g.xConnectionId) == Some(connectionId) ==>
                      g.xConnectionId.None? && g.oConnectionId == old(g.oConnectionId))
                && (old(g.xConnectionId) != Some(connectionId) ==>
                      g.xConnectionId == old(g.xConnectionId) && g.oConnectionId.None?)
      ensures forall k | k in games && Some(k) != hit :: unchanged(games[k])
    {
      hit := None;
      if k :| k in games && games[k].MoverMark(connectionId).Some? {
        var game := games[k];
        if game.xConnectionId == Some(connectionId) {
          Rebind(game, 'X', None, now);
        } else {
          Rebind(game, 'O', None, now);
        }
        hit := Some(k);
        OnlyOneGameChanged(k);
      }
    }
  }
}
