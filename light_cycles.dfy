/**
 * Light cycles: a two-player match on a 60 x 40 grid. Each rider moves one
 * cell per tick and leaves a trail; a rider that leaves the grid, runs into
 * a trail, or meets the other rider head-on crashes. The match object is
 * updated in place under a lock, so each public method is one atomic step.
 */
module LightCycles {
  import opened Wrappers

  const GridWidth: int := 60
  const GridHeight: int := 40
  const CountdownDurationTicks: int := 30

  datatype Direction = Up | Down | Left | Right

  datatype Status = Waiting | Countdown | InProgress | Player1Wins | Player2Wins | Draw | Abandoned

  /** One rider: head cell, heading, queued turn, liveness and the seat's identity. */
  datatype Cycle = Cycle(
    x: int, y: int,
    direction: Direction,
    pending: Option<Direction>,
    alive: bool,
    name: string,
    connectionId: Option<string>,
    sessionId: string)

  /** A grid cell holding a trail of the given player (1 or 2). */
  datatype TrailCell = TrailCell(x: int, y: int, player: int)

  /** What one movement tick reports to the clients. */
  datatype TickResult = TickResult(
    p1X: int, p1Y: int, p1Alive: bool,
    p2X: int, p2Y: int, p2Alive: bool,
    newTrails: seq<TrailCell>,
    status: Status,
    winnerName: Option<string>)

  predicate InGrid(x: int, y: int) {
    0 <= x < GridWidth && 0 <= y < GridHeight
  }

  /** Statuses in which nobody has crashed yet. */
  predicate Live(s: Status) {
    s == Waiting || s == Countdown || s == InProgress
  }

  /** A full reversal, which riders are never allowed to queue. */
  predicate IsOpposite(current: Direction, proposed: Direction)
    ensures IsOpposite(current, proposed) ==> current != proposed
    ensures IsOpposite(current, proposed) ==> ((current == Up || current == Down) <==> (proposed == Up || proposed == Down))
  {
    || (current == Up && proposed == Down)
    || (current == Down && proposed == Up)
    || (current == Left && proposed == Right)
    || (current == Right && proposed == Left)
  }

  /** The cell one step ahead of a rider's head. */
  function NextPosition(c: Cycle): (p: (int, int))
    ensures (p.0 == c.x) != (p.1 == c.y)
    ensures p.0 - c.x + p.1 - c.y == (if c.direction == Down || c.direction == Right then 1 else -1)
    ensures p.0 != c.x <==> c.direction == Left || c.direction == Right
  {
    match c.direction
    case Up => (c.x, c.y - 1)
    case Down => (c.x, c.y + 1)
    case Left => (c.x - 1, c.y)
    case Right => (c.x + 1, c.y)
  }

  /** A rider whose head is on the grid and whose queued turn is not a reversal. */
  predicate Seated(c: Cycle) {
    InGrid(c.x, c.y) && (c.pending.Some? ==> !IsOpposite(c.direction, c.pending.value))
  }

  /** The rider after a steering request: only a live rider queues, and never a reversal. */
  function Queue(c: Cycle, d: Direction): (r: Cycle)
    ensures r.x == c.x && r.y == c.y && r.direction == c.direction && r.alive == c.alive
    ensures r.name == c.name && r.sessionId == c.sessionId && r.connectionId == c.connectionId
    ensures r.pending == (if c.alive && !IsOpposite(c.direction, d) then Some(d) else c.pending)
    ensures Seated(c) ==> Seated(r)
  {
    if !c.alive || IsOpposite(c.direction, d) then c else c.(pending := Some(d))
  }

  /** The rider at the start of a tick, once its queued turn (if any) is applied. */
  function Steer(c: Cycle): (r: Cycle)
    ensures r.pending.None? && r.x == c.x && r.y == c.y && r.alive == c.alive
    ensures r.direction == (if c.pending.Some? then c.pending.value else c.direction)
  {
    if c.pending.Some? then c.(direction := c.pending.value, pending := None) else c
  }

  /**
   * Whether a rider heading for `t` from `at` crashes while the other rider
   * heads for `u` from `other`: it leaves the grid, both aim at the same
   * cell or swap cells (only when both stay on the grid), or `t` already
   * holds a trail.
   */
  predicate Collides(t: (int, int), u: (int, int), at: (int, int), other: (int, int), occupied: bool) {
    || !InGrid(t.0, t.1)
    || (InGrid(u.0, u.1) && (t == u || (t == other && u == at)))
    || occupied
  }

  /**
   * A rider whose next cell is on the grid and free of trail only crashes
   * head-on, and then the other rider crashes too, whatever its own cell holds.
   */
  lemma CrashTogether(t: (int, int), u: (int, int), at: (int, int), other: (int, int), occupied: bool)
    requires InGrid(t.0, t.1) && Collides(t, u, at, other, false)
    ensures InGrid(u.0, u.1) && (t == u || (t == other && u == at))
    ensures Collides(u, t, other, at, occupied)
  {
  }

  /** The status after a movement tick, given which riders crashed. */
  function Outcome(dead1: bool, dead2: bool): (s: Status)
    ensures s == InProgress <==> !dead1 && !dead2
    ensures s == Draw <==> dead1 && dead2
    ensures s == Player1Wins <==> !dead1 && dead2
    ensures s == Player2Wins <==> dead1 && !dead2
  {
    if dead1 && dead2 then Draw
    else if dead1 then Player2Wins
    else if dead2 then Player1Wins
    else InProgress
  }

  /** Order of GetAllTrails: column by column, top to bottom. */
  function Rank(t: TrailCell): int {
    t.x * GridHeight + t.y
  }

  class TronGame {
    const shortCode: string
    /** Trail owner per cell: 0 empty, 1 or 2 a player's trail. */
    const grid: array2<int>
    const createdAt: int
    var player1: Cycle
    var player2: Option<Cycle>
    var status: Status
    var tickCount: int
    var countdownTicks: int
    var startedAt: Option<int>

    /**
     * The grid has its fixed size and only owners 0..2; each rider's head
     * lies on the grid over a cell carrying its own trail; nobody has
     * crashed while the match is live; a countdown has 1..30 ticks left.
     */
    ghost predicate Valid()
      reads this, grid
    {
      && grid.Length0 == GridWidth && grid.Length1 == GridHeight
      && (forall x, y :: 0 <= x < GridWidth && 0 <= y < GridHeight ==> 0 <= grid[x, y] <= 2)
      && Seated(player1) && grid[player1.x, player1.y] == 1
      && (player2.Some? ==> Seated(player2.value) && grid[player2.value.x, player2.value.y] == 2)
      && (status == Waiting ==> player2.None? && player1.x == 15 && player1.y == 20)
      && (status == Countdown ==> 1 <= countdownTicks <= CountdownDurationTicks)
      && (Live(status) ==> player1.alive && (player2.Some? ==> player2.value.alive))
    }

    /** The crash flags of both riders for the next movement tick. */
    ghost function Fates(): (bool, bool)
      reads this, grid
      requires Valid() && player2.Some?
    {
      var a, b := Steer(player1), Steer(player2.value);
      var t1, t2 := NextPosition(a), NextPosition(b);
      (Collides(t1, t2, (a.x, a.y), (b.x, b.y), InGrid(t1.0, t1.1) && grid[t1.0, t1.1] != 0),
       Collides(t2, t1, (b.x, b.y), (a.x, a.y), InGrid(t2.0, t2.1) && grid[t2.0, t2.1] != 0))
    }

    /** Player 1 starts at (15, 20) heading right, alone on an empty grid. */
    constructor (shortCode: string, playerName: string, sessionId: string, now: int)
      ensures Valid() && fresh(grid)
      ensures this.shortCode == shortCode && createdAt == now
      ensures player1 == Cycle(15, 20, Right, None, true, playerName, None, sessionId)
      ensures player2.None? && status == Waiting && tickCount == 0 && countdownTicks == 0 && startedAt.None?
      ensures forall x, y :: 0 <= x < GridWidth && 0 <= y < GridHeight ==>
                grid[x, y] == (if x == 15 && y == 20 then 1 else 0)
    {
      this.shortCode := shortCode;
      createdAt := now;
      grid := new int[GridWidth, GridHeight]((x, y) => 0);
      player1 := Cycle(15, 20, Right, None, true, playerName, None, sessionId);
      player2 := None;
      status := Waiting;
      tickCount := 0;
      countdownTicks := 0;
      startedAt := None;
      new;
      grid[15, 20] := 1;
    }

    /** The countdown, tick counter, start time and grid are as before. */
    twostate predicate SameProgress()
      reads this, grid
    {
      && status == old(status) && tickCount == old(tickCount)
      && countdownTicks == old(countdownTicks) && startedAt == old(startedAt)
      && unchanged(grid)
    }

    /** Which seat a session holds: 1, 2, or 0 for none. */
    function PlayerNumber(sessionId: string): (n: int)
      reads this
      ensures n == 1 <==> player1.sessionId == sessionId
      ensures n == 2 <==> player1.sessionId != sessionId && player2.Some? && player2.value.sessionId == sessionId
      ensures 0 <= n <= 2
    {
      if player1.sessionId == sessionId then 1
      else if player2.Some? && player2.value.sessionId == sessionId then 2
      else 0
    }

    /** Which seat a live connection is bound to: 1, 2, or 0 for none. */
    function ConnectionOwner(connectionId: string): (n: int)
      reads this
      ensures n == 1 <==> player1.connectionId == Some(connectionId)
      ensures n == 2 <==> player1.connectionId != Some(connectionId) && player2.Some?
                          && player2.value.connectionId == Some(connectionId)
      ensures 0 <= n <= 2
    {
      if player1.connectionId == Some(connectionId) then 1
      else if player2.Some? && player2.value.connectionId == Some(connectionId) then 2
      else 0
    }

    /** Seats player 2 at (45, 20) heading left and starts the 30-tick countdown. */
    method AddPlayer2(playerName: string, sessionId: string, connectionId: string) returns (ok: bool)
      requires Valid()
      modifies this, grid
      ensures Valid()
      ensures ok <==> old(status) == Waiting && old(player2).None?
      ensures ok ==> player2 == Some(Cycle(45, 20, Left, None, true, playerName, Some(connectionId), sessionId))
      ensures ok ==> status == Countdown && countdownTicks == CountdownDurationTicks
      ensures ok ==> forall x, y :: 0 <= x < GridWidth && 0 <= y < GridHeight ==>
                       grid[x, y] == (if x == 45 && y == 20 then 2 else old(grid[x, y]))
      ensures player1 == old(player1) && tickCount == old(tickCount) && startedAt == old(startedAt)
      ensures !ok ==> unchanged(this) && unchanged(grid)
    {
      if status != Waiting || player2.Some? {
        return false;
      }
      player2 := Some(Cycle(45, 20, Left, None, true, playerName, Some(connectionId), sessionId));
      grid[45, 20] := 2;
      status := Countdown;
      countdownTicks := CountdownDurationTicks;
      return true;
    }

    /** Queues a turn for the session's rider unless it is dead or the turn is a reversal. */
    method SetDirection(sessionId: string, newDirection: Direction)
      requires Valid()
      modifies this
      ensures Valid()
      ensures player1 == if old(PlayerNumber(sessionId)) == 1 then Queue(old(player1), newDirection) else old(player1)
      ensures player2 == if old(PlayerNumber(sessionId)) == 2 then Some(Queue(old(player2).value, newDirection))
                         else old(player2)
      ensures status == old(status) && tickCount == old(tickCount)
      ensures countdownTicks == old(countdownTicks) && startedAt == old(startedAt)
    {
      if player1.sessionId == sessionId {
        if !player1.alive || IsOpposite(player1.direction, newDirection) {
          return;
        }
        player1 := player1.(pending := Some(newDirection));
      } else if player2.Some? && player2.value.sessionId == sessionId {
        var p2 := player2.value;
        if !p2.alive || IsOpposite(p2.direction, newDirection) {
          return;
        }
        player2 := Some(p2.(pending := Some(newDirection)));
      }
    }

    /**
     * One game tick. During the countdown it only counts down (starting the
     * match at zero); in a running match with both seats taken it moves the
     * riders (see `Move`); otherwise it does nothing.
     */
    method Tick(now: int) returns (r: Option<TickResult>)
      requires Valid()
      modifies this, grid
      ensures Valid()
      ensures old(status) == Countdown ==>
                && r.None? && countdownTicks == old(countdownTicks) - 1
                && status == (if countdownTicks <= 0 then InProgress else Countdown)
                && startedAt == (if countdownTicks <= 0 then Some(now) else old(startedAt))
                && player1 == old(player1) && player2 == old(player2) && tickCount == old(tickCount)
                && unchanged(grid)
      ensures old(status) != Countdown && (old(status) != InProgress || old(player2).None?) ==>
                r.None? && unchanged(this) && unchanged(grid)
      ensures old(status) == InProgress && old(player2).Some? ==>
                r.Some? && Moved(r.value)
    {
      if status == Countdown {
        countdownTicks := countdownTicks - 1;
        if countdownTicks <= 0 {
          status := InProgress;
          startedAt := Some(now);
        }
        return None;
      }
      if status != InProgress {
        return None;
      }
      if player2.None? {
        return None;
      }
      var moved := Move();
      return Some(moved);
    }

    /**
     * The movement step of a running match: both riders apply their queued
     * turns and step; those that crash by `Fates` stay put and die, the
     * others lay a trail on their new cell; the status records who is left,
     * and `r` reports it.
     */
    twostate predicate Moved(r: TickResult)
      reads this, grid
      requires old(Valid()) && old(player2).Some?
    {
      var (dead1, dead2) := old(Fates());
      var a, b := Steer(old(player1)), Steer(old(player2).value);
      var t1, t2 := NextPosition(a), NextPosition(b);
      && tickCount == old(tickCount) + 1
      && countdownTicks == old(countdownTicks) && startedAt == old(startedAt)
      && player1 == (if dead1 then a.(alive := false) else a.(x := t1.0, y := t1.1))
      && player2 == Some(if dead2 then b.(alive := false) else b.(x := t2.0, y := t2.1))
      && status == Outcome(dead1, dead2)
      && (forall x, y :: 0 <= x < GridWidth && 0 <= y < GridHeight ==>
            grid[x, y] == (if !dead1 && (x, y) == t1 then 1
                           else if !dead2 && (x, y) == t2 then 2
                           else old(grid[x, y])))
      && r == TickResult(
                player1.x, player1.y, player1.alive,
                player2.value.x, player2.value.y, player2.value.alive,
                (if dead1 then [] else [TrailCell(t1.0, t1.1, 1)])
                  + (if dead2 then [] else [TrailCell(t2.0, t2.1, 2)]),
                status,
                if status == Player1Wins then Some(player1.name)
                else if status == Player2Wins then Some(player2.value.name)
                else None)
    }

    method Move() returns (r: TickResult)
      requires Valid() && status == InProgress && player2.Some?
      modifies this, grid
      ensures Valid()
      ensures Moved(r)
    {
      tickCount := tickCount + 1;
      var p1, p2 := Steer(player1), Steer(player2.value);
      var (n1x, n1y) := NextPosition(p1);
      var (n2x, n2y) := NextPosition(p2);
      var p1Dead, p2Dead := DetectCrashes(p1, p2, n1x, n1y, n2x, n2y);
      assert (p1Dead, p2Dead) == Fates();
      r := Advance(p1, p2, p1Dead, p2Dead);
      MovedKeepsValid(r);
    }

    /**
     * Marks crashed riders dead where they stand, moves the others onto the
     * cell ahead and lays their trail there, and settles the status.
     */
    method Advance(p1: Cycle, p2: Cycle, p1Dead: bool, p2Dead: bool) returns (r: TickResult)
      requires grid.Length0 == GridWidth && grid.Length1 == GridHeight
      requires !p1Dead ==> InGrid(NextPosition(p1).0, NextPosition(p1).1)
      requires !p2Dead ==> InGrid(NextPosition(p2).0, NextPosition(p2).1)
      modifies this, grid
      ensures var t1, t2 := NextPosition(p1), NextPosition(p2);
              && player1 == (if p1Dead then p1.(alive := false) else p1.(x := t1.0, y := t1.1))
              && player2 == Some(if p2Dead then p2.(alive := false) else p2.(x := t2.0, y := t2.1))
              && (forall x, y :: 0 <= x < GridWidth && 0 <= y < GridHeight ==>
                    grid[x, y] == (if !p2Dead && (x, y) == t2 then 2
                                   else if !p1Dead && (x, y) == t1 then 1
                                   else old(grid[x, y])))
              && r.newTrails == (if p1Dead then [] else [TrailCell(t1.0, t1.1, 1)])
                                + (if p2Dead then [] else [TrailCell(t2.0, t2.1, 2)])
      ensures status == (if p1Dead || p2Dead then Outcome(p1Dead, p2Dead) else old(status))
      ensures r == TickResult(
                player1.x, player1.y, player1.alive,
                player2.value.x, player2.value.y, player2.value.alive,
                r.newTrails, status,
                if status == Player1Wins then Some(player1.name)
                else if status == Player2Wins then Some(player2.value.name)
                else None)
      ensures tickCount == old(tickCount) && countdownTicks == old(countdownTicks) && startedAt == old(startedAt)
    {
      var a, b := p1, p2;
      var (n1x, n1y) := NextPosition(p1);
      var (n2x, n2y) := NextPosition(p2);
      var newTrails: seq<TrailCell> := [];
      if p1Dead {
        a := a.(alive := false);
      }
      if p2Dead {
        b := b.(alive := false);
      }
      if !p1Dead {
        a := a.(x := n1x, y := n1y);
        grid[n1x, n1y] := 1;
        newTrails := newTrails + [TrailCell(n1x, n1y, 1)];
      }
      if !p2Dead {
        b := b.(x := n2x, y := n2y);
        grid[n2x, n2y] := 2;
        newTrails := newTrails + [TrailCell(n2x, n2y, 2)];
      }
      player1, player2 := a, Some(b);
      assert newTrails == (if p1Dead then [] else [TrailCell(n1x, n1y, 1)])
                          + (if p2Dead then [] else [TrailCell(n2x, n2y, 2)]);

      if p1Dead && p2Dead {
        status := Draw;
      } else if p1Dead {
        status := Player2Wins;
      } else if p2Dead {
        status := Player1Wins;
      }
      var winnerName := match status
        case Player1Wins => Some(a.name)
        case Player2Wins => Some(b.name)
        case _ => None;
      r := TickResult(a.x, a.y, a.alive, b.x, b.y, b.alive, newTrails, status, winnerName);
    }

    /** A movement step keeps the match valid. */
    twostate lemma MovedKeepsValid(r: TickResult)
      requires old(Valid()) && old(status) == InProgress && old(player2).Some?
      requires grid.Length0 == GridWidth && grid.Length1 == GridHeight
      requires Moved(r)
      ensures Valid()
    {
    }

    /** The wall, head-on, swap and trail checks, in the order the tick applies them. */
    method DetectCrashes(p1: Cycle, p2: Cycle, n1x: int, n1y: int, n2x: int, n2y: int)
      returns (p1Dead: bool, p2Dead: bool)
      requires grid.Length0 == GridWidth && grid.Length1 == GridHeight
      ensures p1Dead == Collides((n1x, n1y), (n2x, n2y), (p1.x, p1.y), (p2.x, p2.y),
                                 InGrid(n1x, n1y) && grid[n1x, n1y] != 0)
      ensures p2Dead == Collides((n2x, n2y), (n1x, n1y), (p2.x, p2.y), (p1.x, p1.y),
                                 InGrid(n2x, n2y) && grid[n2x, n2y] != 0)
    {
      p1Dead, p2Dead := false, false;
      if n1x < 0 || n1x >= GridWidth || n1y < 0 || n1y >= GridHeight {
        p1Dead := true;
      }
      if n2x < 0 || n2x >= GridWidth || n2y < 0 || n2y >= GridHeight {
        p2Dead := true;
      }
      if !p1Dead && !p2Dead && n1x == n2x && n1y == n2y {
        p1Dead, p2Dead := true, true;
      }
      if !p1Dead && !p2Dead && n1x == p2.x && n1y == p2.y && n2x == p1.x && n2y == p1.y {
        p1Dead, p2Dead := true, true;
      }
      if !p1Dead && grid[n1x, n1y] != 0 {
        p1Dead := true;
      }
      if !p2Dead && grid[n2x, n2y] != 0 {
        p2Dead := true;
      }
    }

    /**
     * Every trail cell of the grid, each once, with its owner, in column-major
     * order.
     */
    method GetAllTrails() returns (trails: seq<TrailCell>)
      requires Valid()
      ensures forall t :: t in trails <==>
                InGrid(t.x, t.y) && grid[t.x, t.y] != 0 && t.player == grid[t.x, t.y]
      ensures forall i, j :: 0 <= i < j < |trails| ==> Rank(trails[i]) < Rank(trails[j])
    {
      trails := [];
      for x := 0 to GridWidth
        invariant forall t :: t in trails <==>
                    InGrid(t.x, t.y) && t.x < x && grid[t.x, t.y] != 0 && t.player == grid[t.x, t.y]
        invariant forall i, j :: 0 <= i < j < |trails| ==> Rank(trails[i]) < Rank(trails[j])
        invariant forall i :: 0 <= i < |trails| ==> Rank(trails[i]) < x * GridHeight
      {
        for y := 0 to GridHeight
          invariant forall t :: t in trails <==>
                      InGrid(t.x, t.y) && (t.x < x || (t.x == x && t.y < y))
                      && grid[t.x, t.y] != 0 && t.player == grid[t.x, t.y]
          invariant forall i, j :: 0 <= i < j < |trails| ==> Rank(trails[i]) < Rank(trails[j])
          invariant forall i :: 0 <= i < |trails| ==> Rank(trails[i]) < x * GridHeight + y
        {
          if grid[x, y] != 0 {
            trails := trails + [TrailCell(x, y, grid[x, y])];
          }
        }
      }
    }
  }

  /**
   * Because each rider's head always carries its own trail, two riders
   * that would swap cells both run into a trail; the explicit swap rule
   * never decides a crash on its own.
   */
  lemma SwapIsAlsoATrailCrash(g: TronGame)
    requires g.Valid() && g.player2.Some?
    ensures var a, b := Steer(g.player1), Steer(g.player2.value);
            var t1, t2 := NextPosition(a), NextPosition(b);
            t1 == (b.x, b.y) && t2 == (a.x, a.y) ==>
              g.grid[t1.0, t1.1] != 0 && g.grid[t2.0, t2.1] != 0
  {
  }
}
