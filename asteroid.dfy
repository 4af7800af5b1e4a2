/**
 * The bodies of the asteroid shooter: rocks on a three-rung size ladder
 * (Large, Medium, Small), bullets and ships, plus the process-wide
 * counters that number rocks and bullets.
 */
module AsteroidObjects {
  import opened Wrappers

  datatype AsteroidSize = Large | Medium | Small

  /** Collision radius of a rock: 40, 20 or 10. */
  function Radius(size: AsteroidSize): (r: real)
    ensures r == (if size == Large then 40.0 else if size == Medium then 20.0 else 10.0)
  {
    match size
    case Large => 40.0
    case Medium => 20.0
    case Small => 10.0
  }

  /** Points a rock is worth when destroyed: 20, 50 or 100. */
  function Points(size: AsteroidSize): (p: int)
    ensures p == (if size == Large then 20 else if size == Medium then 50 else 100)
  {
    match size
    case Large => 20
    case Medium => 50
    case Small => 100
  }

  /** The rung a split rock's fragments take: one down the ladder, none below Small. */
  function Smaller(size: AsteroidSize): (s: Option<AsteroidSize>)
    ensures s.None? <==> size == Small
  {
    match size
    case Large => Some(Medium)
    case Medium => Some(Small)
    case Small => None
  }

  /**
   * Each step down the ladder gives a strictly smaller rock worth strictly
   * more points, and the ladder ends after two steps.
   */
  lemma Ladder(size: AsteroidSize)
    ensures Smaller(size).Some? ==> Radius(Smaller(size).value) < Radius(size)
    ensures Smaller(size).Some? ==> Points(Smaller(size).value) > Points(size)
    ensures Smaller(size).Some? && Smaller(Smaller(size).value).Some? ==> Smaller(Smaller(Smaller(size).value).value).None?
  {
  }

  /** A rock: its number, position, velocity, spin, rung and outline. */
  datatype Asteroid = Asteroid(
    id: int, x: real, y: real, velocityX: real, velocityY: real,
    rotation: real, rotationSpeed: real, size: AsteroidSize, shapeVariant: int)

  /** A bullet: its number, position, velocity, the seat that fired it and its remaining life in ticks. */
  datatype Bullet = Bullet(
    id: int, x: real, y: real, velocityX: real, velocityY: real,
    ownerPlayer: int, ticksRemaining: int)

  /**
   * A ship and its pilot's standing. `nukesRemaining` and `nukeFired` are
   * the board-clearing weapon's stock and its press latch.
   */
  datatype Ship = Ship(
    x: real, y: real, velocityX: real, velocityY: real, rotation: real,
    alive: bool, lives: int, score: int, fireCooldown: int,
    invulnerableTicks: int, respawnTicks: int,
    name: string, connectionId: Option<string>, sessionId: string,
    nukesRemaining: int, nukeFired: bool)

  /**
   * The two process-wide counters behind rock and bullet numbers: each
   * number issued is one more than the last. `rocks` and `shots` are the
   * numbers issued so far.
   */
  class IdCounters {
    var lastAsteroid: int
    var lastBullet: int
    ghost var rocks: set<int>
    ghost var shots: set<int>

    ghost predicate Valid()
      reads this
    {
      && (forall id | id in rocks :: id <= lastAsteroid)
      && (forall id | id in shots :: id <= lastBullet)
    }

    constructor ()
      ensures Valid() && lastAsteroid == 0 && lastBullet == 0 && rocks == {} && shots == {}
    {
      lastAsteroid, lastBullet := 0, 0;
      rocks, shots := {}, {};
    }

    /** The next rock number: strictly above every rock number issued before. */
    method NextAsteroid() returns (id: int)
      requires Valid()
      modifies this`lastAsteroid, this`rocks
      ensures Valid()
      ensures id == old(lastAsteroid) + 1 && lastAsteroid == id
      ensures forall j | j in old(rocks) :: j < id
      ensures rocks == old(rocks) + {id}
    {
      lastAsteroid := lastAsteroid + 1;
      id := lastAsteroid;
      rocks := rocks + {id};
    }

    /** The next bullet number: strictly above every bullet number issued before. */
    method NextBullet() returns (id: int)
      requires Valid()
      modifies this`lastBullet, this`shots
      ensures Valid()
      ensures id == old(lastBullet) + 1 && lastBullet == id
      ensures forall j | j in old(shots) :: j < id
      ensures shots == old(shots) + {id}
    {
      lastBullet := lastBullet + 1;
      id := lastBullet;
      shots := shots + {id};
    }
  }
}
