/**
 * One asteroid-shooter match. Two ships share a wrapping 1200 x 800 arena
 * with rocks that split down a size ladder when hit; each player may have
 * at most five bullets in flight, waves grow by one rock up to eleven, a
 * board-clearing nuke is earned every third wave, and a ship that is hit
 * loses a life and comes back after a delay. The match ends when both
 * ships are out of lives.
 */
module AsteroidMatch {
  import opened Wrappers
  import opened Numerics
  import opened AsteroidObjects

  const ArenaWidth: real := 1200.0
  const ArenaHeight: real := 800.0
  const ShipThrust: real := 0.15
  const ShipMaxSpeed: real := 5.0
  const ShipDrag: real := 0.99
  const ShipRotationSpeed: real := 0.07
  const ShipRadius: real := 15.0
  const ShipStartLives: int := 3
  const ShipInvulnerableTicks: int := 48
  const ShipRespawnDelay: int := 32
  const BulletSpeed: real := 7.0
  const BulletLifetime: int := 60
  const BulletCooldown: int := 8
  const MaxBulletsPerPlayer: int := 5
  const WavePauseTicks: int := 32
  const CountdownDurationTicks: int := 48
  const SafeSpawnDistance: real := 100.0
  /** Every bullet's collision radius. */
  const BulletRadius: real := 2.0

  datatype Status = Waiting | Countdown | InProgress | GameOver | Abandoned

  /** The status as the number clients receive: its position in the declaration. */
  function StatusCode(s: Status): (code: int)
    ensures 0 <= code <= 4
  {
    match s
    case Waiting => 0
    case Countdown => 1
    case InProgress => 2
    case GameOver => 3
    case Abandoned => 4
  }

  /** The keys a player holds down. */
  datatype PlayerInput = PlayerInput(thrust: bool, rotateLeft: bool, rotateRight: bool, fire: bool, nuke: bool)

  /** No key held: the input a seat has before its player sends any. */
  const Idle: PlayerInput := PlayerInput(false, false, false, false, false)

  datatype Explosion = Explosion(x: real, y: real, size: string)

  /** A rung's name in lower case, as explosions and snapshots carry it. */
  function SizeName(size: AsteroidSize): (name: string)
    ensures |name| > 0
  {
    match size
    case Large => "large"
    case Medium => "medium"
    case Small => "small"
  }

  datatype ShipState = ShipState(x: real, y: real, rotation: real, alive: bool, thrusting: bool, invulnerable: bool)
  datatype AsteroidState = AsteroidState(id: int, x: real, y: real, rotation: real, size: string, shapeVariant: int)
  datatype BulletState = BulletState(id: int, x: real, y: real, owner: int)

  /** What one tick (or a full-state request) sends to both clients. */
  datatype TickResult = TickResult(
    tick: int, p1: ShipState, p2: Option<ShipState>,
    asteroids: seq<AsteroidState>, bullets: seq<BulletState>, explosions: seq<Explosion>,
    p1Score: int, p2Score: int, p1Lives: int, p2Lives: int, wave: int,
    status: Option<int>, p1Nukes: int, p2Nukes: int)

  /** A ship as clients see it: where it is and where it faces; it shows thrust only while alive and holding the key. */
  function MakeShipState(s: Ship, input: PlayerInput): (st: ShipState)
    ensures st.x == s.x && st.y == s.y && st.rotation == s.rotation && st.alive == s.alive
    ensures st.thrusting <==> input.thrust && s.alive
    ensures st.invulnerable <==> s.invulnerableTicks > 0
  {
    ShipState(s.x, s.y, s.rotation, s.alive, input.thrust && s.alive, s.invulnerableTicks > 0)
  }

  /** A rock as clients see it: its number, place, spin, outline and rung name. */
  function MakeAsteroidState(a: Asteroid): (st: AsteroidState)
    ensures st.id == a.id && st.x == a.x && st.y == a.y && st.rotation == a.rotation && st.shapeVariant == a.shapeVariant
    ensures st.size == SizeName(a.size)
  {
    AsteroidState(a.id, a.x, a.y, a.rotation, SizeName(a.size), a.shapeVariant)
  }

  /** A bullet as clients see it: its number, place and firing seat. */
  function MakeBulletState(b: Bullet): (st: BulletState)
    ensures st.id == b.id && st.x == b.x && st.y == b.y && st.owner == b.ownerPlayer
  {
    BulletState(b.id, b.x, b.y, b.ownerPlayer)
  }

  /**
   * Screen wrap by one arena length: anything within one length outside
   * the arena comes back inside, and a position inside stays put.
   */
  function Wrap(value: real, max: real): (w: real)
    ensures -max <= value < 2.0 * max ==> 0.0 <= w < max
    ensures 0.0 <= value < max ==> w == value
  {
    if value < 0.0 then value + max
    else if value >= max then value - max
    else value
  }

  /** The squared distance between two points: never negative. */
  function DistanceSq(x1: real, y1: real, x2: real, y2: real): (d: real)
    ensures d >= 0.0
  {
    var dx := x1 - x2;
    var dy := y1 - y2;
    Square(dx);
    Square(dy);
    dx * dx + dy * dy
  }

  /** A square is never negative. */
  lemma Square(a: real)
    ensures a * a >= 0.0
  {
    if a < 0.0 {
      var b := -a;
      assert b * b > 0.0 * b;
      assert a * a == b * b;
    }
  }

  /** Two circles overlap: their centres are closer than the sum of the radii. */
  predicate CircleCollision(x1: real, y1: real, r1: real, x2: real, y2: real, r2: real)
  {
    DistanceSq(x1, y1, x2, y2) < (r1 + r2) * (r1 + r2)
  }

  /** Overlap does not depend on which circle is named first. */
  lemma CollisionSymmetric(x1: real, y1: real, r1: real, x2: real, y2: real, r2: real)
    ensures CircleCollision(x1, y1, r1, x2, y2, r2) <==> CircleCollision(x2, y2, r2, x1, y1, r1)
  {
    assert (x1 - x2) * (x1 - x2) == (x2 - x1) * (x2 - x1);
    assert (y1 - y2) * (y1 - y2) == (y2 - y1) * (y2 - y1);
  }

  /** Snapshots tell the rungs apart: distinct rungs have distinct names. */
  lemma SizeNamesDistinct(a: AsteroidSize, b: AsteroidSize)
    ensures SizeName(a) == SizeName(b) <==> a == b
  {
  }

  /** A ship of three lives at rest at (x, y), facing `rotation`. */
  function NewShip(x: real, y: real, rotation: real, name: string, sessionId: string, connectionId: Option<string>): (s: Ship)
    ensures ShipOk(s) && s.alive && s.lives == ShipStartLives && s.score == 0 && s.nukesRemaining == 0 && !s.nukeFired
    ensures s.x == x && s.y == y && s.rotation == rotation && s.velocityX == 0.0 && s.velocityY == 0.0
    ensures s.name == name && s.sessionId == sessionId && s.connectionId == connectionId
  {
    Ship(x, y, 0.0, 0.0, rotation, true, ShipStartLives, 0, 0, 0, 0, name, connectionId, sessionId, 0, false)
  }

  /** Where seat n's ship starts and respawns: a third of the way in from its side, facing the other. */
  function StartX(n: int): real
  {
    if n == 1 then ArenaWidth / 3.0 else ArenaWidth * 2.0 / 3.0
  }

  /** The standing invariant of a ship: lives within the start count, a live ship has one, timers in range. */
  predicate ShipOk(s: Ship)
  {
    && 0 <= s.lives <= ShipStartLives
    && (s.alive ==> s.lives >= 1)
    && 0 <= s.fireCooldown <= BulletCooldown
    && s.invulnerableTicks >= 0
    && s.nukesRemaining >= 0
  }

  /** A ship out of the match: no lives left and not flying. */
  predicate Out(s: Ship)
  {
    s.lives <= 0 && !s.alive
  }

  /** Turning and thrust: the speed is capped at the maximum, and nothing but heading and velocity changes. */
  function Steered(s: Ship, input: PlayerInput, m: MathLib): (t: Ship)
    ensures t == s.(rotation := t.rotation, velocityX := t.velocityX, velocityY := t.velocityY)
    ensures !input.thrust ==> t.velocityX == s.velocityX && t.velocityY == s.velocityY
  {
    var r1 := if input.rotateLeft then s.rotation - ShipRotationSpeed else s.rotation;
    var rot := if input.rotateRight then r1 + ShipRotationSpeed else r1;
    if !input.thrust then s.(rotation := rot)
    else
      var vx := s.velocityX + m.cos(rot) * ShipThrust;
      var vy := s.velocityY + m.sin(rot) * ShipThrust;
      var speed := m.sqrt(vx * vx + vy * vy);
      if speed > ShipMaxSpeed then
        s.(rotation := rot, velocityX := vx / speed * ShipMaxSpeed, velocityY := vy / speed * ShipMaxSpeed)
      else
        s.(rotation := rot, velocityX := vx, velocityY := vy)
  }

  /** A bullet leaving ship s of seat n from its nose, with a share of the ship's own speed. */
  function Shot(s: Ship, n: int, id: int, m: MathLib): (b: Bullet)
    ensures b.ownerPlayer == n && b.ticksRemaining == BulletLifetime && b.id == id
  {
    Bullet(id, s.x + m.cos(s.rotation) * ShipRadius, s.y + m.sin(s.rotation) * ShipRadius,
           m.cos(s.rotation) * BulletSpeed + s.velocityX * 0.3, m.sin(s.rotation) * BulletSpeed + s.velocityY * 0.3,
           n, BulletLifetime)
  }

  /**
   * The end of a live ship's input step: both timers count down towards
   * zero, and the nuke latch opens once the key is released (and only then).
   */
  function Settled(s: Ship, input: PlayerInput): (t: Ship)
    ensures t == s.(fireCooldown := t.fireCooldown, invulnerableTicks := t.invulnerableTicks, nukeFired := t.nukeFired)
    ensures t.fireCooldown == if s.fireCooldown > 0 then s.fireCooldown - 1 else s.fireCooldown
    ensures t.invulnerableTicks == if s.invulnerableTicks > 0 then s.invulnerableTicks - 1 else s.invulnerableTicks
    ensures t.nukeFired <==> s.nukeFired && input.nuke
  {
    var c := if s.fireCooldown > 0 then s.fireCooldown - 1 else s.fireCooldown;
    var i := if s.invulnerableTicks > 0 then s.invulnerableTicks - 1 else s.invulnerableTicks;
    s.(fireCooldown := c, invulnerableTicks := i, nukeFired := s.nukeFired && input.nuke)
  }

  /** A live ship coasts with drag and wraps; a dead one stays where it is. Nothing but position and velocity changes. */
  function Drifted(s: Ship): (t: Ship)
    ensures t == s.(x := t.x, y := t.y, velocityX := t.velocityX, velocityY := t.velocityY)
    ensures !s.alive ==> t == s
  {
    if !s.alive then s
    else
      var vx := s.velocityX * ShipDrag;
      var vy := s.velocityY * ShipDrag;
      s.(velocityX := vx, velocityY := vy, x := Wrap(s.x + vx, ArenaWidth), y := Wrap(s.y + vy, ArenaHeight))
  }

  /**
   * A dead ship with lives left counts its respawn delay down; when it runs
   * out the ship comes back at rest at its seat's start, shielded for 48
   * ticks. Lives, score and nukes are never touched.
   */
  function Respawned(s: Ship, n: int, m: MathLib): (t: Ship)
    ensures t.lives == s.lives && t.score == s.score && t.nukesRemaining == s.nukesRemaining && t.nukeFired == s.nukeFired
    ensures t.fireCooldown == s.fireCooldown && t.name == s.name && t.sessionId == s.sessionId && t.connectionId == s.connectionId
    ensures s.alive || s.lives <= 0 ==> t == s
    ensures t.alive && !s.alive ==> t.lives >= 1 && t.invulnerableTicks == ShipInvulnerableTicks
                                    && t.x == StartX(n) && t.y == ArenaHeight / 2.0
    ensures !t.alive && !s.alive && s.lives > 0 ==> t == s.(respawnTicks := s.respawnTicks - 1)
  {
    if s.alive || s.lives <= 0 then s
    else
      var ticks := s.respawnTicks - 1;
      if ticks <= 0 then
        s.(respawnTicks := ticks, alive := true, invulnerableTicks := ShipInvulnerableTicks,
           velocityX := 0.0, velocityY := 0.0, x := StartX(n), y := ArenaHeight / 2.0,
           rotation := if n == 1 then 0.0 else m.pi)
      else s.(respawnTicks := ticks)
  }

  /** The rock a ship runs into: none while it is dead or invulnerable, else the last one it touches. */
  function ShipHit(s: Ship, rocks: seq<Asteroid>): (hit: Option<nat>)
    ensures hit.Some? ==> s.alive && s.invulnerableTicks <= 0 && hit.value < |rocks|
  {
    if s.alive && s.invulnerableTicks <= 0 then LastHit(rocks, s.x, s.y, ShipRadius) else None
  }

  /** A ship hit by a rock: down, one life fewer, stopped, and waiting 32 ticks to respawn. */
  function Struck(s: Ship): (t: Ship)
    ensures !t.alive && t.lives == s.lives - 1 && t.respawnTicks == ShipRespawnDelay
    ensures t.velocityX == 0.0 && t.velocityY == 0.0 && t.x == s.x && t.y == s.y
    ensures t.score == s.score && t.nukesRemaining == s.nukesRemaining && t.nukeFired == s.nukeFired
  {
    s.(alive := false, lives := s.lives - 1, respawnTicks := ShipRespawnDelay, velocityX := 0.0, velocityY := 0.0)
  }

  /**
   * The input, flight and respawn stages of a step keep a ship's lives and
   * nukes, keep a live ship alive, and leave the nuke latch alone while the
   * key is down.
   */
  predicate Steady(before: Ship, after: Ship, input: PlayerInput)
  {
    && after.lives == before.lives && after.nukesRemaining == before.nukesRemaining
    && (before.alive ==> after.alive)
    && (input.nuke ==> after.nukeFired == before.nukeFired)
  }

  /**
   * The nuke latch over a step taken with the key down: a latched ship stays
   * latched and spends no nuke, and a ship alive at the start ends latched.
   */
  predicate LatchHeld(before: Ship, after: Ship, input: PlayerInput)
  {
    input.nuke ==>
      && (before.nukeFired ==> after.nukeFired && after.nukesRemaining >= before.nukesRemaining)
      && (before.alive ==> after.nukeFired)
  }

  /** Over a step a ship keeps its lives, or loses exactly one and goes down for the full respawn delay. */
  predicate LifeKept(before: Ship, after: Ship)
  {
    || after.lives == before.lives
    || (after.lives == before.lives - 1 && !after.alive && after.respawnTicks == ShipRespawnDelay)
  }

  // ---------------------------------------------------------------- bullets

  /** How many of the bullets seat n fired. */
  function Owned(bs: seq<Bullet>, n: int): (c: nat)
    ensures c <= |bs|
  {
    if bs == [] then 0 else (if bs[0].ownerPlayer == n then 1 else 0) + Owned(bs[1..], n)
  }

  lemma {:induction false} OwnedConcat(a: seq<Bullet>, b: seq<Bullet>, n: int)
    ensures Owned(a + b, n) == Owned(a, n) + Owned(b, n)
  {
    if a == [] {
      assert a + b == b;
    } else {
      assert (a + b)[0] == a[0] && (a + b)[1..] == a[1..] + b;
      OwnedConcat(a[1..], b, n);
    }
  }

  /** Dropping one bullet never raises any seat's count, and lowers its owner's by one. */
  lemma OwnedRemove(bs: seq<Bullet>, i: int, n: int)
    requires 0 <= i < |bs|
    ensures Owned(bs[..i] + bs[i + 1..], n) == Owned(bs, n) - (if bs[i].ownerPlayer == n then 1 else 0)
  {
    assert bs == bs[..i] + ([bs[i]] + bs[i + 1..]);
    OwnedConcat(bs[..i], [bs[i]] + bs[i + 1..], n);
    OwnedConcat(bs[..i], bs[i + 1..], n);
    assert ([bs[i]] + bs[i + 1..])[1..] == bs[i + 1..];
  }

  /** A bullet in play: fired by seat 1 or 2, with between 1 and 60 ticks to live. */
  predicate Sane(b: Bullet)
  {
    (b.ownerPlayer == 1 || b.ownerPlayer == 2) && 1 <= b.ticksRemaining <= BulletLifetime
  }

  /** The bullet invariant: every bullet sane, and no seat with more than five in flight. */
  predicate BulletsOk(bs: seq<Bullet>)
  {
    && (forall i :: 0 <= i < |bs| ==> Sane(bs[i]))
    && Owned(bs, 1) <= MaxBulletsPerPlayer && Owned(bs, 2) <= MaxBulletsPerPlayer
  }

  /** One tick of flight: move, wrap, and one tick less to live. */
  function Flown(b: Bullet): (f: Bullet)
    ensures f == b.(x := f.x, y := f.y, ticksRemaining := b.ticksRemaining - 1)
  {
    b.(x := Wrap(b.x + b.velocityX, ArenaWidth), y := Wrap(b.y + b.velocityY, ArenaHeight),
       ticksRemaining := b.ticksRemaining - 1)
  }

  /** The bullets after a tick of flight: every one flown, those out of time gone, order kept. */
  function Kept(bs: seq<Bullet>): (k: seq<Bullet>)
    ensures |k| <= |bs|
    ensures (forall i :: 0 <= i < |bs| ==> Sane(bs[i])) ==> forall i :: 0 <= i < |k| ==> Sane(k[i])
  {
    if bs == [] then []
    else
      var f := Flown(bs[0]);
      (if f.ticksRemaining > 0 then [f] else []) + Kept(bs[1..])
  }

  /** Flying the bullets from index i on: bullet i's outcome, then the rest. */
  lemma KeptStep(bs: seq<Bullet>, i: int)
    requires 0 <= i < |bs|
    ensures Kept(bs[i..]) == (if Flown(bs[i]).ticksRemaining > 0 then [Flown(bs[i])] else []) + Kept(bs[i + 1..])
  {
    assert bs[i..][0] == bs[i] && bs[i..][1..] == bs[i + 1..];
  }

  /** Flight never raises a seat's bullet count. */
  lemma {:induction false} KeptOwned(bs: seq<Bullet>, n: int)
    ensures Owned(Kept(bs), n) <= Owned(bs, n)
  {
    if bs != [] {
      var f := Flown(bs[0]);
      var head := if f.ticksRemaining > 0 then [f] else [];
      KeptOwned(bs[1..], n);
      OwnedConcat(head, Kept(bs[1..]), n);
      if head != [] {
        assert head[1..] == [];
      }
    }
  }

  /** Overwriting element i of a list is cutting it out and putting the new value in its place. */
  lemma Replaced<T>(s: seq<T>, i: int, v: T)
    requires 0 <= i < |s|
    ensures s[i := v] == s[..i] + ([v] + s[i + 1..])
  {
  }

  /** Flight keeps the bullet invariant: every bullet still sane, no seat over the cap. */
  lemma KeptOk(bs: seq<Bullet>)
    requires BulletsOk(bs)
    ensures BulletsOk(Kept(bs))
  {
    KeptOwned(bs, 1);
    KeptOwned(bs, 2);
  }

  /**
   * The bullet walk of one tick, from the back of the list: each bullet
   * flies, and one whose life has run out is removed where it stands.
   */
  method Fly(bs: seq<Bullet>) returns (k: seq<Bullet>)
    ensures k == Kept(bs)
  {
    k := bs;
    var i := |k| - 1;
    while i >= 0
      invariant -1 <= i < |bs|
      invariant k == bs[..i + 1] + Kept(bs[i + 1..])
    {
      var b := Flown(k[i]);
      KeptStep(bs, i);
      ghost var rest := Kept(bs[i + 1..]);
      assert k[..i] == bs[..i] && k[i + 1..] == rest;
      if b.ticksRemaining <= 0 {
        k := k[..i] + k[i + 1..];
      } else {
        Replaced(k, i, b);
        k := k[i := b];
      }
      i := i - 1;
    }
    assert bs[..0] == [] && bs[0..] == bs;
  }

  // ---------------------------------------------------------------- rocks

  /** One tick of drift: move, wrap and spin. Number, rung and outline are kept. */
  function Tumbled(a: Asteroid): (t: Asteroid)
    ensures t == a.(x := t.x, y := t.y, rotation := t.rotation)
  {
    a.(x := Wrap(a.x + a.velocityX, ArenaWidth), y := Wrap(a.y + a.velocityY, ArenaHeight),
       rotation := a.rotation + a.rotationSpeed)
  }

  /** The points all the given rocks are worth together. */
  function TotalPoints(rocks: seq<Asteroid>): (p: int)
    ensures p >= 0
    ensures p <= 100 * |rocks|
  {
    if rocks == [] then 0 else TotalPoints(rocks[..|rocks| - 1]) + Points(rocks[|rocks| - 1].size)
  }

  /** A circle at (x, y) of radius r touches rock a. */
  predicate Touches(a: Asteroid, x: real, y: real, r: real)
  {
    CircleCollision(x, y, r, a.x, a.y, Radius(a.size))
  }

  /** The last rock in the list a circle touches, if any: the scan runs from the back and stops at the first contact. */
  function LastHit(rocks: seq<Asteroid>, x: real, y: real, r: real): (hit: Option<nat>)
    ensures hit.Some? ==> hit.value < |rocks|
  {
    if rocks == [] then None
    else if Touches(rocks[|rocks| - 1], x, y, r) then Some(|rocks| - 1)
    else LastHit(rocks[..|rocks| - 1], x, y, r)
  }

  /**
   * The scan finds the last rock the circle touches: the one it reports is
   * touched and no later one is, and when it reports none, no rock is touched.
   */
  lemma {:induction false} LastHitIsLast(rocks: seq<Asteroid>, x: real, y: real, r: real)
    ensures var hit := LastHit(rocks, x, y, r);
            && (hit.Some? ==> Touches(rocks[hit.value], x, y, r)
                              && forall j :: hit.value < j < |rocks| ==> !Touches(rocks[j], x, y, r))
            && (hit.None? ==> forall j :: 0 <= j < |rocks| ==> !Touches(rocks[j], x, y, r))
  {
    if rocks != [] && !Touches(rocks[|rocks| - 1], x, y, r) {
      var front := rocks[..|rocks| - 1];
      LastHitIsLast(front, x, y, r);
      assert forall j :: 0 <= j < |front| ==> front[j] == rocks[j];
    }
  }

  /** An explosion where rock a was, named after its rung. */
  function Burst(a: Asteroid): Explosion
  {
    Explosion(a.x, a.y, SizeName(a.size))
  }

  /** One bullet hit: the seat that fired it and the rock it destroyed. */
  datatype Hit = Hit(owner: int, rock: Asteroid)

  /** The points seat n earned from the given hits. */
  function Gain(hits: seq<Hit>, n: int): (g: int)
    ensures g >= 0
  {
    if hits == [] then 0
    else Gain(hits[..|hits| - 1], n) + (if hits[|hits| - 1].owner == n then Points(hits[|hits| - 1].rock.size) else 0)
  }

  /** The explosions the given hits leave, in order. */
  function Bursts(hits: seq<Hit>): (e: seq<Explosion>)
    ensures |e| == |hits|
  {
    if hits == [] then [] else Bursts(hits[..|hits| - 1]) + [Burst(hits[|hits| - 1].rock)]
  }

  /** Explosion i is where the rock of hit i was. */
  lemma {:induction false} BurstsInOrder(hits: seq<Hit>)
    ensures forall i :: 0 <= i < |hits| ==> Bursts(hits)[i] == Burst(hits[i].rock)
  {
    if hits != [] {
      var front := hits[..|hits| - 1];
      BurstsInOrder(front);
      assert forall i :: 0 <= i < |front| ==> front[i] == hits[i];
    }
  }

  /** Scores add up over hits: a ship credited for some hits and then for one more is credited for all of them. */
  lemma Tally(o: Ship, a: Ship, b: Ship, hits: seq<Hit>, h: Hit, n: int)
    requires Unscored(a) == Unscored(o) && a.score == o.score + Gain(hits, n)
    requires Unscored(b) == Unscored(a) && b.score == a.score + (if h.owner == n then Points(h.rock.size) else 0)
    ensures Unscored(b) == Unscored(o) && b.score == o.score + Gain(hits + [h], n)
  {
    HitsStep(hits, h);
  }

  /** Ship s with its score set aside: everything a hit leaves as it was. */
  function Unscored(s: Ship): Ship
  {
    s.(score := 0)
  }

  /** One more hit adds its points to its owner's gain and its explosion to the end. */
  lemma HitsStep(hits: seq<Hit>, h: Hit)
    ensures Gain(hits + [h], 1) == Gain(hits, 1) + (if h.owner == 1 then Points(h.rock.size) else 0)
    ensures Gain(hits + [h], 2) == Gain(hits, 2) + (if h.owner == 2 then Points(h.rock.size) else 0)
    ensures Bursts(hits + [h]) == Bursts(hits) + [Burst(h.rock)]
  {
    assert (hits + [h])[..|hits|] == hits;
  }

  // ---------------------------------------------------------------- randomness

  /** Every number the random source yields lies in [0, 1). */
  ghost predicate Unit(rng: nat -> real)
  {
    forall k: nat :: 0.0 <= rng(k) < 1.0
  }

  /** `Random.Next(n)` from the uniform number d: an index in [0, n). */
  function Pick(d: real, n: nat): (k: int)
    requires 0.0 <= d < 1.0 && n > 0
    ensures 0 <= k < n
  {
    var v := d * n as real;
    assert 0.0 <= v < n as real;
    assert Trunc(v) as real <= v;
    Trunc(v)
  }

  /** Where the arena edge lies: on one of its four sides. */
  predicate OnEdge(x: real, y: real)
  {
    x == 0.0 || x == ArenaWidth || y == 0.0 || y == ArenaHeight
  }

  /**
   * The spawn point proposed by the two draws at position p: a side chosen
   * by the first, a point along it chosen by the second.
   */
  function Proposal(rng: nat -> real, p: nat): (s: (real, real))
    requires Unit(rng)
    ensures OnEdge(s.0, s.1)
  {
    var edge := Pick(rng(p), 4);
    var d := rng(p + 1);
    if edge == 0 then (0.0, d * ArenaHeight)
    else if edge == 1 then (ArenaWidth, d * ArenaHeight)
    else if edge == 2 then (d * ArenaWidth, 0.0)
    else (d * ArenaWidth, ArenaHeight)
  }

  /** A spawn point at least the safe distance from both ships. */
  predicate SafeSpot(x: real, y: real, p1: Ship, p2: Option<Ship>)
  {
    !(DistanceSq(x, y, p1.x, p1.y) < SafeSpawnDistance * SafeSpawnDistance
      || (p2.Some? && DistanceSq(x, y, p2.value.x, p2.value.y) < SafeSpawnDistance * SafeSpawnDistance))
  }

  /** Redrawing from position p eventually proposes a safe point for ships p1 and p2. */
  ghost predicate EventuallySafe(rng: nat -> real, p: nat, p1: Ship, p2: Option<Ship>)
    requires Unit(rng)
  {
    exists j: nat :: var s := Proposal(rng, p + 2 * j); SafeSpot(s.0, s.1, p1, p2)
  }

  /**
   * What the random source has to provide for the spawn loop to end: from
   * any position and for any ships, redrawing eventually proposes a safe
   * point.
   */
  ghost predicate Fair(rng: nat -> real)
  {
    Unit(rng) && forall p: nat, p1: Ship, p2: Option<Ship> :: EventuallySafe(rng, p, p1, p2)
  }

  /** The rock-count of wave w: three more than the wave number, never more than eleven. */
  function WaveSize(w: int): int
  {
    MinInt(4 + w - 1, 11)
  }

  /** Wave counts start at four, grow by one per wave, and stop at eleven. */
  lemma WaveSizes(w: int)
    requires w >= 1
    ensures WaveSize(1) == 4 && 4 <= WaveSize(w) <= 11
    ensures WaveSize(w + 1) == if w >= 8 then 11 else WaveSize(w) + 1
  {
  }

  /** Reaching wave w awards each ship a nuke. */
  predicate NukeWave(w: int)
  {
    w % 3 == 1 && w > 1
  }

  /** The nuke waves are exactly 4, 7, 10, and so on. */
  lemma NukeWaves(w: int)
    ensures NukeWave(w) <==> exists k :: 1 <= k && w == 3 * k + 1
  {
    if NukeWave(w) {
      var k := w / 3;
      assert w == 3 * k + 1;
    }
  }

  /**
   * Fragment k (0 or 1) of a split rock, drawing from position p: one rung
   * down, at the parent's place, heading off the parent's course by half a
   * radian either way plus up to 0.4 of jitter, 1.2 to 1.7 times as fast.
   */
  function Fragment(parent: Asteroid, k: int, rng: nat -> real, p: nat, id: int, m: MathLib): (f: Asteroid)
    requires Unit(rng) && parent.size != Small
    ensures f.size == Smaller(parent.size).value && f.x == parent.x && f.y == parent.y && f.id == id
    ensures 0 <= f.shapeVariant < 5
  {
    var speed := m.sqrt(parent.velocityX * parent.velocityX + parent.velocityY * parent.velocityY);
    var baseAngle := m.atan2(parent.velocityY, parent.velocityX);
    var spread := baseAngle + (if k == 0 then -0.5 else 0.5) + (rng(p) * 0.8 - 0.4);
    var newSpeed := speed * (1.2 + rng(p + 1) * 0.5);
    Asteroid(id, parent.x, parent.y, m.cos(spread) * newSpeed, m.sin(spread) * newSpeed,
             rng(p + 2) * (2.0 * m.pi), rng(p + 3) * 0.06 - 0.03, Smaller(parent.size).value, Pick(rng(p + 4), 5))
  }

  /**
   * The first n fragments the splitting loop adds for a rock, the k-th
   * drawing from position p + 5k and numbered id + k: each one rung down,
   * at the parent's place.
   */
  function Fragments(parent: Asteroid, rng: nat -> real, p: nat, id: int, m: MathLib, n: nat): (fs: seq<Asteroid>)
    requires Unit(rng) && parent.size != Small
    ensures |fs| == n
  {
    if n == 0 then []
    else Fragments(parent, rng, p, id, m, n - 1) + [Fragment(parent, n - 1, rng, p + 5 * (n - 1), id + n - 1, m)]
  }

  /** f is a fragment of parent numbered id: one rung smaller, where the parent was. */
  predicate Shaped(f: Asteroid, parent: Asteroid, id: int)
  {
    parent.size != Small && f.size == Smaller(parent.size).value && f.x == parent.x && f.y == parent.y && f.id == id
  }

  /** Fragment k is one rung smaller than its parent, starts where the parent was and is numbered id + k. */
  lemma {:induction false} FragmentsShape(parent: Asteroid, rng: nat -> real, p: nat, id: int, m: MathLib, n: nat)
    requires Unit(rng) && parent.size != Small
    ensures forall k | 0 <= k < n :: Shaped(Fragments(parent, rng, p, id, m, n)[k], parent, id + k)
  {
    if n > 0 {
      FragmentsShape(parent, rng, p, id, m, n - 1);
      var fs := Fragments(parent, rng, p, id, m, n);
      var prev := Fragments(parent, rng, p, id, m, n - 1);
      assert fs == prev + [Fragment(parent, n - 1, rng, p + 5 * (n - 1), id + n - 1, m)];
      forall k | 0 <= k < n
        ensures Shaped(fs[k], parent, id + k)
      {
        if k < n - 1 {
          assert fs[k] == prev[k];
        }
      }
    }
  }

  /** A list ending in the first n fragments, with fragment n appended, ends in the first n + 1. */
  lemma FragmentsGrow(rest: seq<Asteroid>, rocks: seq<Asteroid>, parent: Asteroid, rng: nat -> real, p: nat, id: int,
                      m: MathLib, n: nat, rock: Asteroid)
    requires Unit(rng) && parent.size != Small
    requires rocks == rest + Fragments(parent, rng, p, id, m, n)
    requires rock == Fragment(parent, n, rng, p + 5 * n, id + n, m)
    ensures rocks + [rock] == rest + Fragments(parent, rng, p, id, m, n + 1)
  {
    FragmentsStep(parent, rng, p, id, m, n);
  }

  lemma FragmentsStep(parent: Asteroid, rng: nat -> real, p: nat, id: int, m: MathLib, n: nat)
    requires Unit(rng) && parent.size != Small
    ensures Fragments(parent, rng, p, id, m, n + 1) == Fragments(parent, rng, p, id, m, n) + [Fragment(parent, n, rng, p + 5 * n, id + n, m)]
  {
  }

  /** Fragments fly faster than their parent: between 1.2 and 1.7 times its speed. */
  lemma FragmentsSpeedUp(speed: real, d: real)
    requires speed >= 0.0 && 0.0 <= d < 1.0
    ensures speed * 1.2 <= speed * (1.2 + d * 0.5) <= speed * 1.7
  {
    assert speed * (1.2 + d * 0.5) == speed * 1.2 + speed * d * 0.5;
    assert speed * d <= speed;
  }

  /** How many fragments a rock of the given rung leaves when it splits: two, or none for a Small one. */
  function Pieces(size: AsteroidSize): (n: nat)
    ensures n <= 2 && (n == 0 <==> size == Small)
  {
    if size == Small then 0 else 2
  }

  /**
   * The rock list after rock ai splits, drawing from position p and
   * numbering from id: the other rocks keep their order, and the fragments
   * (none for a Small rock) come last, one rung down at the rock's place.
   */
  function Split(rocks: seq<Asteroid>, ai: nat, rng: nat -> real, p: nat, id: int, m: MathLib): (r: seq<Asteroid>)
    requires Unit(rng) && ai < |rocks|
    ensures |r| == |rocks| - 1 + Pieces(rocks[ai].size)
  {
    var rest := rocks[..ai] + rocks[ai + 1..];
    if rocks[ai].size == Small then rest else rest + Fragments(rocks[ai], rng, p, id, m, 2)
  }

  /**
   * What a split leaves: the other rocks first, in their order, then the
   * fragments, each one rung down at the split rock's place and numbered
   * from id on.
   */
  lemma SplitShape(rocks: seq<Asteroid>, ai: nat, rng: nat -> real, p: nat, id: int, m: MathLib)
    requires Unit(rng) && ai < |rocks|
    ensures var r := Split(rocks, ai, rng, p, id, m);
            && r[..|rocks| - 1] == rocks[..ai] + rocks[ai + 1..]
            && forall k | |rocks| - 1 <= k < |r| :: Shaped(r[k], rocks[ai], id + (k - (|rocks| - 1)))
  {
    var r := Split(rocks, ai, rng, p, id, m);
    var rest := rocks[..ai] + rocks[ai + 1..];
    if rocks[ai].size != Small {
      var fs := Fragments(rocks[ai], rng, p, id, m, 2);
      FragmentsShape(rocks[ai], rng, p, id, m, 2);
      assert r == rest + fs;
      forall k | |rocks| - 1 <= k < |r|
        ensures r[k] == fs[k - (|rocks| - 1)]
      {
      }
    }
  }

  /** What the bullet pass works on: the bullets, the rocks, the draws taken so far and the next rock number. */
  datatype Pass = Pass(bullets: seq<Bullet>, rocks: seq<Asteroid>, drawn: nat, nextId: int)

  /** The hit bullet bi scores in state s: the last rock it touches, credited to the bullet's seat. */
  function HitBy(s: Pass, bi: nat): (h: Option<Hit>)
    requires bi < |s.bullets|
    ensures h.Some? ==> h.value.owner == s.bullets[bi].ownerPlayer
  {
    var b := s.bullets[bi];
    match LastHit(s.rocks, b.x, b.y, BulletRadius)
    case None => None
    case Some(ai) => Some(Hit(b.ownerPlayer, s.rocks[ai]))
  }

  /**
   * A bullet hits iff it touches some rock, and the rock it hits is one it
   * touches, with no rock after it in the list touched.
   */
  lemma HitByIsLast(s: Pass, bi: nat)
    requires bi < |s.bullets|
    ensures var b := s.bullets[bi];
            var h := HitBy(s, bi);
            && (h.None? <==> forall j :: 0 <= j < |s.rocks| ==> !Touches(s.rocks[j], b.x, b.y, BulletRadius))
            && (h.Some? ==> exists i :: 0 <= i < |s.rocks| && h.value.rock == s.rocks[i]
                                        && Touches(s.rocks[i], b.x, b.y, BulletRadius)
                                        && forall j :: i < j < |s.rocks| ==> !Touches(s.rocks[j], b.x, b.y, BulletRadius))
  {
    var b := s.bullets[bi];
    LastHitIsLast(s.rocks, b.x, b.y, BulletRadius);
  }

  /**
   * Bullet bi takes its shot: on a hit the rock it touched last splits and
   * the bullet is removed; a bullet that touches nothing changes nothing.
   */
  function ShootOne(s: Pass, bi: nat, rng: nat -> real, m: MathLib): (t: Pass)
    requires Unit(rng) && bi < |s.bullets|
    ensures HitBy(s, bi).None? ==> t == s
    ensures HitBy(s, bi).Some? ==>
              && t.bullets == s.bullets[..bi] + s.bullets[bi + 1..]
              && |t.rocks| == |s.rocks| - 1 + Pieces(HitBy(s, bi).value.rock.size)
              && t.drawn == s.drawn + 5 * Pieces(HitBy(s, bi).value.rock.size)
              && t.nextId == s.nextId + Pieces(HitBy(s, bi).value.rock.size)
  {
    var b := s.bullets[bi];
    match LastHit(s.rocks, b.x, b.y, BulletRadius)
    case None => s
    case Some(ai) =>
      var n := Pieces(s.rocks[ai].size);
      Pass(s.bullets[..bi] + s.bullets[bi + 1..], Split(s.rocks, ai, rng, s.drawn, s.nextId, m), s.drawn + 5 * n, s.nextId + n)
  }

  /** A bullet that lands on rock ai scores that rock and leaves the state Split makes. */
  lemma ShotLands(s: Pass, bi: nat, ai: nat, rng: nat -> real, m: MathLib)
    requires Unit(rng) && bi < |s.bullets|
    requires LastHit(s.rocks, s.bullets[bi].x, s.bullets[bi].y, BulletRadius) == Some(ai)
    ensures HitBy(s, bi) == Some(Hit(s.bullets[bi].ownerPlayer, s.rocks[ai]))
    ensures var n := Pieces(s.rocks[ai].size);
            ShootOne(s, bi, rng, m) == Pass(s.bullets[..bi] + s.bullets[bi + 1..], Split(s.rocks, ai, rng, s.drawn, s.nextId, m), s.drawn + 5 * n, s.nextId + n)
  {
  }

  /**
   * The bullet pass as a fold: bullets n - 1, n - 2, ..., 0 shoot in turn,
   * each against the state the later ones left. The result is the final
   * state and the hits in the order they happened: one hit per bullet
   * removed, and the bullets from n on are never touched.
   */
  function Salvo(s: Pass, n: nat, rng: nat -> real, m: MathLib): (v: (Pass, seq<Hit>))
    requires Unit(rng) && n <= |s.bullets|
    decreases n
  {
    if n == 0 then (s, [])
    else
      var h := HitBy(s, n - 1);
      var v := Salvo(ShootOne(s, n - 1, rng, m), n - 1, rng, m);
      (v.0, (if h.Some? then [h.value] else []) + v.1)
  }

  /**
   * What the fold keeps: at most n bullets go, one hit per bullet gone,
   * and the bullets from n on are still there, last in the list and in
   * their order.
   */
  lemma {:induction false} SalvoKeeps(s: Pass, n: nat, rng: nat -> real, m: MathLib)
    requires Unit(rng) && n <= |s.bullets|
    ensures var v := Salvo(s, n, rng, m);
            && |s.bullets| - n <= |v.0.bullets| <= |s.bullets|
            && |v.1| == |s.bullets| - |v.0.bullets|
            && v.0.bullets[|v.0.bullets| - (|s.bullets| - n)..] == s.bullets[n..]
    decreases n
  {
    if n > 0 {
      var h := HitBy(s, n - 1);
      var t := ShootOne(s, n - 1, rng, m);
      assert h.Some? ==> t.bullets == s.bullets[..n - 1] + s.bullets[n..];
      assert h.None? ==> t.bullets == s.bullets;
      SalvoKeeps(t, n - 1, rng, m);
      var w := Salvo(t, n - 1, rng, m);
      assert Salvo(s, n, rng, m) == (w.0, (if h.Some? then [h.value] else []) + w.1);
      KeepTail(s.bullets, t.bullets, w.0.bullets, n, h.Some?);
    }
  }

  /**
   * One step of SalvoKeeps on the bullet lists alone: bullet n - 1 was
   * dropped (hit) or not, and the rest of the pass kept the tail after it.
   */
  lemma KeepTail(sb: seq<Bullet>, tb: seq<Bullet>, wb: seq<Bullet>, n: nat, hit: bool)
    requires 0 < n <= |sb|
    requires hit ==> tb == sb[..n - 1] + sb[n..]
    requires !hit ==> tb == sb
    requires |tb| - (n - 1) <= |wb| <= |tb| && wb[|wb| - (|tb| - (n - 1))..] == tb[n - 1..]
    ensures |sb| - n <= |wb| <= |sb| - (if hit then 1 else 0)
    ensures wb[|wb| - (|sb| - n)..] == sb[n..]
  {
    if hit {
      DropKeepsTail(sb, n - 1);
    } else {
      TailOfTail(wb, sb[n - 1..], |sb| - n);
      assert sb[n - 1..][1..] == sb[n..];
    }
  }

  /**
   * One more bullet of the fold: if the pass so far (hits, then what is
   * still to come from state cur) reaches goal, then so does the pass that
   * has also taken bullet bi's shot.
   */
  lemma SalvoOn(goal: (Pass, seq<Hit>), hits: seq<Hit>, cur: Pass, bi: nat, rng: nat -> real, m: MathLib)
    requires Unit(rng) && bi < |cur.bullets|
    requires goal.0 == Salvo(cur, bi + 1, rng, m).0 && goal.1 == hits + Salvo(cur, bi + 1, rng, m).1
    ensures var next := ShootOne(cur, bi, rng, m);
            var h := HitBy(cur, bi);
            var hits' := hits + (if h.Some? then [h.value] else []);
            && bi <= |next.bullets|
            && goal.0 == Salvo(next, bi, rng, m).0 && goal.1 == hits' + Salvo(next, bi, rng, m).1
  {
    var h := HitBy(cur, bi);
    var rest := Salvo(ShootOne(cur, bi, rng, m), bi, rng, m).1;
    if h.Some? {
      assert hits + ([h.value] + rest) == (hits + [h.value]) + rest;
    } else {
      assert [] + rest == rest && hits + [] == hits;
    }
  }

  /** Removing element i leaves everything after it, shifted down by one. */
  lemma DropKeepsTail<T>(xs: seq<T>, i: nat)
    requires i < |xs|
    ensures (xs[..i] + xs[i + 1..])[i..] == xs[i + 1..]
  {
  }

  /** A sequence that ends with ys, of length k + 1, also ends with ys without its first element. */
  lemma TailOfTail<T>(xs: seq<T>, ys: seq<T>, k: nat)
    requires |ys| == k + 1 <= |xs| && xs[|xs| - (k + 1)..] == ys
    ensures xs[|xs| - k..] == ys[1..]
  {
    assert xs[|xs| - k..] == xs[|xs| - (k + 1)..][1..];
  }

  /** A wave rock: Large, at the proposed point, numbered, speed scaled by the wave. */
  function WaveRock(x: real, y: real, w: int, rng: nat -> real, p: nat, id: int, m: MathLib): (a: Asteroid)
    requires Unit(rng)
    ensures a.size == Large && a.x == x && a.y == y && a.id == id
  {
    var speedMult := 1.0 + (w - 1) as real * 0.1;
    var angle := rng(p) * (2.0 * m.pi);
    var speed := (0.5 + rng(p + 1) * 1.0) * speedMult;
    Asteroid(id, x, y, m.cos(angle) * speed, m.sin(angle) * speed,
             rng(p + 2) * (2.0 * m.pi), rng(p + 3) * 0.04 - 0.02, Large, Pick(rng(p + 4), 5))
  }

  // ---------------------------------------------------------------- the match

  class AsteroidGame {
    const shortCode: string
    var player1: Ship
    var player2: Option<Ship>
    var asteroids: seq<Asteroid>
    var bullets: seq<Bullet>
    var status: Status
    var tickCount: int
    var countdownTicks: int
    var wave: int
    const createdAt: int
    var startedAt: Option<int>
    var p1Input: PlayerInput
    var p2Input: PlayerInput
    var wavePauseRemaining: int
    var asteroidsChanged: bool
    /** The match's random source: the k-th number it yields. */
    const rng: nat -> real
    /** How many numbers have been drawn from it. */
    var drawn: nat
    /** The floating-point library. */
    const math: MathLib
    /** The process-wide rock and bullet counters. */
    const ids: IdCounters

    /**
     * The match invariant: a second ship exactly once the match has left
     * Waiting, both ships in standing, the bullet cap, and the counters in
     * range.
     */
    ghost predicate Valid()
      reads this
    {
      && (status == Waiting <==> player2.None?)
      && ShipOk(player1) && (player2.Some? ==> ShipOk(player2.value))
      && BulletsOk(bullets)
      && wave >= 0 && wavePauseRemaining >= 0
      && (status == InProgress ==> wave >= 1)
    }

    /** A match waiting for its second player, with player 1 at its start facing right. */
    constructor (shortCode: string, playerName: string, sessionId: string, rng: nat -> real, math: MathLib,
                 ids: IdCounters, now: int)
      ensures Valid() && this.shortCode == shortCode && this.rng == rng && this.math == math && this.ids == ids
      ensures player1 == NewShip(ArenaWidth / 3.0, ArenaHeight / 2.0, 0.0, playerName, sessionId, None)
      ensures player2.None? && status == Waiting && asteroids == [] && bullets == []
      ensures tickCount == 0 && countdownTicks == 0 && wave == 0 && createdAt == now && startedAt.None?
      ensures p1Input == Idle && p2Input == Idle && wavePauseRemaining == 0 && drawn == 0
    {
      this.shortCode := shortCode;
      player1 := NewShip(ArenaWidth / 3.0, ArenaHeight / 2.0, 0.0, playerName, sessionId, None);
      player2 := None;
      asteroids, bullets := [], [];
      status := Waiting;
      tickCount, countdownTicks, wave := 0, 0, 0;
      createdAt := now;
      startedAt := None;
      p1Input, p2Input := Idle, Idle;
      wavePauseRemaining := 0;
      asteroidsChanged := false;
      this.rng := rng;
      drawn := 0;
      this.math := math;
      this.ids := ids;
    }

    /** Seats the second ship, facing left, and starts the 48-tick countdown; refused unless waiting for it. */
    method AddPlayer2(playerName: string, sessionId: string, connectionId: string) returns (ok: bool)
      requires Valid()
      modifies this`player2, this`status, this`countdownTicks
      ensures Valid()
      ensures ok <==> old(status) == Waiting && old(player2).None?
      ensures !ok ==> unchanged(this)
      ensures ok ==> && player2 == Some(NewShip(ArenaWidth * 2.0 / 3.0, ArenaHeight / 2.0, math.pi,
                                                playerName, sessionId, Some(connectionId)))
                     && status == Countdown && countdownTicks == CountdownDurationTicks
    {
      if status != Waiting || player2.Some? {
        return false;
      }
      player2 := Some(NewShip(ArenaWidth * 2.0 / 3.0, ArenaHeight / 2.0, math.pi, playerName, sessionId, Some(connectionId)));
      status := Countdown;
      countdownTicks := CountdownDurationTicks;
      return true;
    }

    /** Stages the keys of the seat the session holds; any other session is ignored. */
    method SetInput(sessionId: string, input: PlayerInput)
      modifies this`p1Input, this`p2Input
      ensures GetPlayerNumber(sessionId) == 1 ==> p1Input == input && p2Input == old(p2Input)
      ensures GetPlayerNumber(sessionId) == 2 ==> p2Input == input && p1Input == old(p1Input)
      ensures GetPlayerNumber(sessionId) == 0 ==> p1Input == old(p1Input) && p2Input == old(p2Input)
    {
      if player1.sessionId == sessionId {
        p1Input := input;
      } else if player2.Some? && player2.value.sessionId == sessionId {
        p2Input := input;
      }
    }

    /** Seat of a session: 1, 2, or 0 when it holds neither. */
    function GetPlayerNumber(sessionId: string): (n: int)
      reads this`player1, this`player2
      ensures n == 1 <==> player1.sessionId == sessionId
      ensures n == 2 <==> player1.sessionId != sessionId && player2.Some? && player2.value.sessionId == sessionId
      ensures n == 0 || n == 1 || n == 2
    {
      if player1.sessionId == sessionId then 1
      else if player2.Some? && player2.value.sessionId == sessionId then 2
      else 0
    }

    /** The ship and seat of a session, if it holds one: the seat GetPlayerNumber names. */
    function GetPlayerBySession(sessionId: string): (r: Option<(Ship, int)>)
      reads this`player1, this`player2
      ensures r.Some? <==> GetPlayerNumber(sessionId) != 0
      ensures r.Some? ==> r.value.1 == GetPlayerNumber(sessionId) && r.value.0.sessionId == sessionId
    {
      if player1.sessionId == sessionId then Some((player1, 1))
      else if player2.Some? && player2.value.sessionId == sessionId then Some((player2.value, 2))
      else None
    }

    /** Seat holding a connection (the ship GetShipByConnection finds): 1, 2, or 0 when neither does. */
    function ConnectionOwner(connectionId: string): (n: int)
      reads this`player1, this`player2
      ensures n == 1 <==> player1.connectionId == Some(connectionId)
      ensures n == 2 <==> player1.connectionId != Some(connectionId) && player2.Some?
                          && player2.value.connectionId == Some(connectionId)
      ensures n == 0 || n == 1 || n == 2
    {
      if player1.connectionId == Some(connectionId) then 1
      else if player2.Some? && player2.value.connectionId == Some(connectionId) then 2
      else 0
    }

    /** Everything but the two ships is as it was: the match has not moved on. */
    twostate predicate SameProgress()
      reads this
    {
      && status == old(status) && asteroids == old(asteroids) && bullets == old(bullets)
      && tickCount == old(tickCount) && countdownTicks == old(countdownTicks) && wave == old(wave)
      && startedAt == old(startedAt) && p1Input == old(p1Input) && p2Input == old(p2Input)
      && wavePauseRemaining == old(wavePauseRemaining) && asteroidsChanged == old(asteroidsChanged)
      && drawn == old(drawn)
    }

    /** Binds (or with None, clears) the connection of seat n's ship. */
    method Bind(n: int, connectionId: Option<string>)
      requires Valid() && (n == 1 || (n == 2 && player2.Some?))
      modifies this`player1, this`player2
      ensures Valid()
      ensures player1 == if n == 1 then old(player1).(connectionId := connectionId) else old(player1)
      ensures player2 == if n == 2 then Some(old(player2).value.(connectionId := connectionId)) else old(player2)
    {
      if n == 1 {
        player1 := player1.(connectionId := connectionId);
      } else {
        player2 := Some(player2.value.(connectionId := connectionId));
      }
    }

    /** The ship in seat n. */
    function ShipOf(n: int): Ship
      requires n == 1 || (n == 2 && player2.Some?)
      reads this`player1, this`player2
    {
      if n == 1 then player1 else player2.value
    }

    /** The keys staged for seat n. */
    function InputOf(n: int): PlayerInput
      reads this`p1Input, this`p2Input
    {
      if n == 1 then p1Input else p2Input
    }

    /** Replaces the ship in seat n; the other seat is left alone. */
    method SetShip(n: int, s: Ship)
      requires n == 1 || (n == 2 && player2.Some?)
      modifies this`player1, this`player2
      ensures n == 1 ==> player1 == s && player2 == old(player2)
      ensures n == 2 ==> player2 == Some(s) && player1 == old(player1)
    {
      if n == 1 {
        player1 := s;
      } else {
        player2 := Some(s);
      }
    }

    /** The next number of the random source. */
    method NextDouble() returns (d: real)
      modifies this`drawn
      ensures d == rng(old(drawn)) && drawn == old(drawn) + 1
    {
      d := rng(drawn);
      drawn := drawn + 1;
    }

    /** `Random.Next(n)`: the next number of the source scaled to an index in [0, n). */
    method NextInt(n: nat) returns (k: int)
      requires Unit(rng) && n > 0
      modifies this`drawn
      ensures k == Pick(rng(old(drawn)), n) && drawn == old(drawn) + 1
    {
      var d := NextDouble();
      k := Pick(d, n);
    }

    /**
     * One tick. A countdown counts down and, when it ends, starts wave 1;
     * a match in play runs a full step and reports it; any other match is
     * left alone. Only a step in play produces a report.
     */
    method Tick(now: int) returns (r: Option<TickResult>)
      requires Valid() && ids.Valid() && Fair(rng)
      modifies this, ids
      ensures Valid() && ids.Valid()
      ensures r.Some? <==> old(status) == InProgress
      ensures old(status) == Countdown ==>
                && countdownTicks == old(countdownTicks) - 1
                && (countdownTicks > 0 ==> status == Countdown && asteroids == old(asteroids))
                && (countdownTicks <= 0 ==> status == InProgress && wave == 1 && startedAt == Some(now)
                                            && |asteroids| == |old(asteroids)| + WaveSize(1))
      ensures old(status) != Countdown && old(status) != InProgress ==> unchanged(this) && unchanged(ids)
      ensures old(status) == InProgress ==>
                && tickCount == old(tickCount) + 1 && r.value.tick == tickCount
                && player2.Some? && (status == GameOver <==> Out(player1) && Out(player2.value))
                && (status == GameOver || status == InProgress)
                && r.value.status == (if status == GameOver then Some(StatusCode(GameOver)) else None)
                && p1Input == old(p1Input) && p2Input == old(p2Input)
                && LatchHeld(old(player1), player1, p1Input) && LatchHeld(old(player2.value), player2.value, p2Input)
                && LifeKept(old(player1), player1) && LifeKept(old(player2.value), player2.value)
    {
      if status == Countdown {
        countdownTicks := countdownTicks - 1;
        if countdownTicks <= 0 {
          status := InProgress;
          startedAt := Some(now);
          wave := 1;
          SpawnWave();
        }
        return None;
      }
      if status != InProgress {
        return None;
      }
      var result := Play();
      return Some(result);
    }

    /** A full step of a match in play (the body of Tick once it is InProgress). */
    method Play() returns (r: TickResult)
      requires Valid() && ids.Valid() && Fair(rng) && status == InProgress
      modifies this`tickCount, this`status, this`player1, this`player2, this`bullets, this`asteroids, this`drawn
      modifies this`asteroidsChanged, this`wavePauseRemaining, this`wave, ids
      ensures Valid() && ids.Valid()
      ensures tickCount == old(tickCount) + 1 && r.tick == tickCount
      ensures player2.Some? && (status == GameOver <==> Out(player1) && Out(player2.value))
      ensures status == GameOver || status == InProgress
      ensures r.status == if status == GameOver then Some(StatusCode(GameOver)) else None
      ensures p1Input == old(p1Input) && p2Input == old(p2Input)
      ensures LatchHeld(old(player1), player1, p1Input) && LatchHeld(old(player2.value), player2.value, p2Input)
      ensures LifeKept(old(player1), player1) && LifeKept(old(player2.value), player2.value)
    {
      tickCount := tickCount + 1;
      var explosions: seq<Explosion> := [];
      asteroidsChanged := false;
      explosions := Advance(explosions);
      var statusChange := None;
      if Out(player1) && Out(player2.value) {
        status := GameOver;
        statusChange := Some(StatusCode(GameOver));
      }
      r := Report(explosions, statusChange);
    }

    /**
     * The stages of a step between the clock and the report: the ships
     * (Steer), then the world (Resolve). Over the step every ship keeps its
     * lives or loses exactly one, and the nuke latch holds while the key is down.
     */
    method Advance(explosions: seq<Explosion>) returns (ex: seq<Explosion>)
      requires Valid() && ids.Valid() && Fair(rng) && player2.Some? && wave >= 1
      modifies this`player1, this`player2, this`bullets, this`asteroids, this`drawn, this`asteroidsChanged
      modifies this`wavePauseRemaining, this`wave, ids`lastAsteroid, ids`rocks, ids`lastBullet, ids`shots
      ensures Valid() && ids.Valid() && player2.Some?
      ensures LatchHeld(old(player1), player1, p1Input) && LatchHeld(old(player2.value), player2.value, p2Input)
      ensures LifeKept(old(player1), player1) && LifeKept(old(player2.value), player2.value)
    {
      Steer();
      ex := Resolve(explosions);
    }

    /** The ship stages of a step: both ships take their input, then both coast, then both count towards respawn. */
    method Steer()
      requires Valid() && ids.Valid() && player2.Some?
      modifies this`player1, this`player2, this`bullets, ids`lastBullet, ids`shots
      ensures Valid() && ids.Valid() && player2.Some?
      ensures Steady(old(player1), player1, p1Input) && Steady(old(player2.value), player2.value, p2Input)
    {
      ProcessShipInput(1);
      ProcessShipInput(2);
      MoveShip(1);
      MoveShip(2);
      HandleRespawn(1);
      HandleRespawn(2);
    }

    /** The world stages of a step: bullets and rocks move, collisions resolve, and the wave clock runs. */
    method Resolve(explosions: seq<Explosion>) returns (ex: seq<Explosion>)
      requires Valid() && ids.Valid() && Fair(rng) && player2.Some? && wave >= 1
      modifies this`player1, this`player2, this`bullets, this`asteroids, this`drawn, this`asteroidsChanged
      modifies this`wavePauseRemaining, this`wave, ids`lastAsteroid, ids`rocks
      ensures Valid() && ids.Valid() && player2.Some?
      ensures LatchHeld(old(player1), player1, p1Input) && LatchHeld(old(player2.value), player2.value, p2Input)
      ensures LifeKept(old(player1), player1) && LifeKept(old(player2.value), player2.value)
    {
      MoveBullets();
      MoveAsteroids();
      ex := Strike(explosions);
      CheckWave();
    }

    /** The collision stages of a step: both nukes, then bullets against rocks, then both ships against rocks. */
    method Strike(explosions: seq<Explosion>) returns (ex: seq<Explosion>)
      requires Valid() && ids.Valid() && Unit(rng) && player2.Some?
      modifies this`player1, this`player2, this`bullets, this`asteroids, this`drawn, this`asteroidsChanged
      modifies ids`lastAsteroid, ids`rocks
      ensures Valid() && ids.Valid() && player2.Some?
      ensures LatchHeld(old(player1), player1, p1Input) && LatchHeld(old(player2.value), player2.value, p2Input)
      ensures LifeKept(old(player1), player1) && LifeKept(old(player2.value), player2.value)
    {
      ex := CheckNuke(1, explosions);
      ex := CheckNuke(2, ex);
      ex := Collide(ex);
    }

    /** Bullets against rocks, then both ships against rocks. */
    method Collide(explosions: seq<Explosion>) returns (ex: seq<Explosion>)
      requires Valid() && ids.Valid() && Unit(rng) && player2.Some?
      modifies this`player1, this`player2, this`bullets, this`asteroids, this`drawn, this`asteroidsChanged
      modifies ids`lastAsteroid, ids`rocks
      ensures Valid() && ids.Valid() && player2.Some?
      ensures player1.nukeFired == old(player1.nukeFired) && player1.nukesRemaining == old(player1.nukesRemaining)
      ensures player2.value.nukeFired == old(player2.value.nukeFired)
      ensures player2.value.nukesRemaining == old(player2.value.nukesRemaining)
      ensures LifeKept(old(player1), player1) && LifeKept(old(player2.value), player2.value)
    {
      ghost var hits;
      ex, hits := CheckBulletAsteroidCollisions(explosions);
      ex := CheckShipAsteroidCollisions(1, ex);
      ex := CheckShipAsteroidCollisions(2, ex);
    }

    /** The report of a step: both ships, the rocks when they changed, the bullets, and the standings. */
    function Report(explosions: seq<Explosion>, statusChange: Option<int>): (r: TickResult)
      requires player2.Some?
      reads this
      ensures r.tick == tickCount && r.status == statusChange && r.explosions == explosions
      ensures |r.asteroids| == if asteroidsChanged then |asteroids| else 0
      ensures |r.bullets| == |bullets|
    {
      var rocks := asteroids;
      var shots := bullets;
      TickResult(tickCount, MakeShipState(player1, p1Input), Some(MakeShipState(player2.value, p2Input)),
                 if asteroidsChanged then seq(|rocks|, i requires 0 <= i < |rocks| => MakeAsteroidState(rocks[i])) else [],
                 seq(|shots|, i requires 0 <= i < |shots| => MakeBulletState(shots[i])),
                 explosions, player1.score, player2.value.score, player1.lives, player2.value.lives, wave,
                 statusChange, player1.nukesRemaining, player2.value.nukesRemaining)
    }

    /** Everything a client needs to draw the match from scratch, with the status always set. */
    function GetFullState(playerNumber: int): (r: TickResult)
      reads this
      ensures r.status == Some(StatusCode(status)) && r.explosions == []
      ensures |r.asteroids| == |asteroids| && |r.bullets| == |bullets|
      ensures r.p2.Some? <==> player2.Some?
    {
      var rocks := asteroids;
      var shots := bullets;
      TickResult(tickCount, MakeShipState(player1, p1Input),
                 if player2.Some? then Some(MakeShipState(player2.value, p2Input)) else None,
                 seq(|rocks|, i requires 0 <= i < |rocks| => MakeAsteroidState(rocks[i])),
                 seq(|shots|, i requires 0 <= i < |shots| => MakeBulletState(shots[i])),
                 [], player1.score, if player2.Some? then player2.value.score else 0,
                 player1.lives, if player2.Some? then player2.value.lives else 0, wave,
                 Some(StatusCode(status)), player1.nukesRemaining,
                 if player2.Some? then player2.value.nukesRemaining else 0)
    }

    /**
     * Seat n's keys act on a live ship: it turns and thrusts, fires when
     * the cooldown is over and the seat has fewer than five bullets in
     * flight (restarting the cooldown at 8), counts its timers down, and
     * opens the nuke latch when the key is up. A dead ship ignores input.
     */
    method ProcessShipInput(n: int)
      requires Valid() && ids.Valid() && (n == 1 || n == 2) && player2.Some?
      modifies this`player1, this`player2, this`bullets, ids`lastBullet, ids`shots
      ensures Valid() && ids.Valid() && player2.Some?
      ensures n == 1 ==> player2 == old(player2)
      ensures n == 2 ==> player1 == old(player1)
      ensures var s := old(ShipOf(n));
              var fired := s.alive && InputOf(n).fire && s.fireCooldown <= 0 && old(Owned(bullets, n)) < MaxBulletsPerPlayer;
              && (!s.alive ==> ShipOf(n) == s && bullets == old(bullets))
              && (fired ==> && bullets == old(bullets) + [Shot(Steered(s, InputOf(n), math), n, ids.lastBullet, math)]
                            && ShipOf(n) == Settled(Steered(s, InputOf(n), math).(fireCooldown := BulletCooldown), InputOf(n)))
              && (s.alive && !fired ==> bullets == old(bullets) && ShipOf(n) == Settled(Steered(s, InputOf(n), math), InputOf(n)))
    {
      var s := ShipOf(n);
      var input := InputOf(n);
      if !s.alive {
        return;
      }
      s := Trigger(n, Steered(s, input, math), input);
      SetShip(n, Settled(s, input));
    }

    /**
     * Seat n pulls the trigger of ship s: when the key is down, the
     * cooldown is over and the seat has fewer than five bullets in flight,
     * a bullet with the next number leaves s and the cooldown restarts.
     */
    method Trigger(n: int, s: Ship, input: PlayerInput) returns (t: Ship)
      requires Valid() && ids.Valid() && (n == 1 || n == 2)
      modifies this`bullets, ids`lastBullet, ids`shots
      ensures Valid() && ids.Valid()
      ensures var fired := input.fire && s.fireCooldown <= 0 && old(Owned(bullets, n)) < MaxBulletsPerPlayer;
              && (fired ==> bullets == old(bullets) + [Shot(s, n, ids.lastBullet, math)] && t == s.(fireCooldown := BulletCooldown))
              && (!fired ==> bullets == old(bullets) && t == s)
    {
      t := s;
      if input.fire && s.fireCooldown <= 0 && Owned(bullets, n) < MaxBulletsPerPlayer {
        var id := ids.NextBullet();
        AddBullet(Shot(s, n, id, math));
        t := s.(fireCooldown := BulletCooldown);
      }
    }

    /** Puts a fresh bullet in flight, at the end of the list, for a seat still under the cap. */
    method AddBullet(b: Bullet)
      requires Valid() && Sane(b) && Owned(bullets, b.ownerPlayer) < MaxBulletsPerPlayer
      modifies this`bullets
      ensures Valid() && bullets == old(bullets) + [b]
    {
      OwnedConcat(bullets, [b], 1);
      OwnedConcat(bullets, [b], 2);
      bullets := bullets + [b];
    }

    /** Seat n's ship coasts (see Drifted). */
    method MoveShip(n: int)
      requires Valid() && (n == 1 || n == 2) && player2.Some?
      modifies this`player1, this`player2
      ensures Valid() && player2.Some?
      ensures ShipOf(n) == Drifted(old(ShipOf(n)))
      ensures n == 1 ==> player2 == old(player2)
      ensures n == 2 ==> player1 == old(player1)
    {
      SetShip(n, Drifted(ShipOf(n)));
    }

    /** Seat n's ship counts down to its respawn (see Respawned). */
    method HandleRespawn(n: int)
      requires Valid() && (n == 1 || n == 2) && player2.Some?
      modifies this`player1, this`player2
      ensures Valid() && player2.Some?
      ensures ShipOf(n) == Respawned(old(ShipOf(n)), n, math)
      ensures n == 1 ==> player2 == old(player2)
      ensures n == 2 ==> player1 == old(player1)
    {
      SetShip(n, Respawned(ShipOf(n), n, math));
    }

    /** Every bullet flies one tick, from the back of the list; those out of time are dropped. */
    method MoveBullets()
      requires Valid()
      modifies this`bullets
      ensures Valid()
      ensures bullets == Kept(old(bullets))
    {
      KeptOk(bullets);
      bullets := Fly(bullets);
    }

    /** Every rock drifts one tick (see Tumbled). */
    method MoveAsteroids()
      modifies this`asteroids
      ensures |asteroids| == |old(asteroids)|
      ensures forall i :: 0 <= i < |asteroids| ==> asteroids[i] == Tumbled(old(asteroids)[i])
    {
      var i := 0;
      while i < |asteroids|
        invariant 0 <= i <= |asteroids| == |old(asteroids)|
        invariant forall k :: 0 <= k < i ==> asteroids[k] == Tumbled(old(asteroids)[k])
        invariant forall k :: i <= k < |asteroids| ==> asteroids[k] == old(asteroids)[k]
      {
        asteroids := asteroids[i := Tumbled(asteroids[i])];
        i := i + 1;
      }
    }

    /**
     * Seat n's nuke: a live ship whose key is down and whose latch is open
     * sets the latch; if it has a nuke left it spends one, scores every rock
     * on the board, and clears the board with one explosion at the ship.
     */
    method CheckNuke(n: int, explosions: seq<Explosion>) returns (ex: seq<Explosion>)
      requires Valid() && (n == 1 || n == 2) && player2.Some?
      modifies this`player1, this`player2, this`asteroids, this`asteroidsChanged
      ensures Valid() && player2.Some?
      ensures n == 1 ==> player2 == old(player2)
      ensures n == 2 ==> player1 == old(player1)
      ensures var s := old(ShipOf(n));
              var pressed := s.alive && InputOf(n).nuke && !s.nukeFired;
              && (!pressed ==> ShipOf(n) == s && asteroids == old(asteroids) && ex == explosions
                               && asteroidsChanged == old(asteroidsChanged))
              && (pressed && s.nukesRemaining <= 0 ==>
                    && ShipOf(n) == s.(nukeFired := true) && asteroids == old(asteroids) && ex == explosions
                    && asteroidsChanged == old(asteroidsChanged))
              && (pressed && s.nukesRemaining > 0 ==>
                    && ShipOf(n) == s.(nukeFired := true, nukesRemaining := s.nukesRemaining - 1,
                                       score := s.score + TotalPoints(old(asteroids)))
                    && asteroids == [] && asteroidsChanged && ex == explosions + [Explosion(s.x, s.y, "nuke")])
    {
      ex := explosions;
      var s := ShipOf(n);
      if !s.alive || !InputOf(n).nuke || s.nukeFired {
        return;
      }
      s := s.(nukeFired := true);
      if s.nukesRemaining <= 0 {
        SetShip(n, s);
        return;
      }
      s := s.(nukesRemaining := s.nukesRemaining - 1);
      var i := 0;
      var score := s.score;
      while i < |asteroids|
        invariant 0 <= i <= |asteroids|
        invariant score == s.score + TotalPoints(asteroids[..i])
      {
        assert asteroids[..i + 1][..i] == asteroids[..i];
        score := score + Points(asteroids[i].size);
        i := i + 1;
      }
      assert asteroids[..i] == asteroids;
      SetShip(n, s.(score := score));
      ex := ex + [Explosion(s.x, s.y, "nuke")];
      asteroids := [];
      asteroidsChanged := true;
    }

    /** The last rock a circle touches, scanning from the back of the list. */
    method FindHit(x: real, y: real, r: real) returns (hit: Option<nat>)
      ensures hit == LastHit(asteroids, x, y, r)
    {
      var ai := |asteroids| - 1;
      assert asteroids[..ai + 1] == asteroids;
      while ai >= 0
        invariant -1 <= ai < |asteroids|
        invariant LastHit(asteroids, x, y, r) == LastHit(asteroids[..ai + 1], x, y, r)
      {
        assert asteroids[..ai + 1][..ai] == asteroids[..ai];
        if Touches(asteroids[ai], x, y, r) {
          return Some(ai);
        }
        ai := ai - 1;
      }
      return None;
    }

    /**
     * Removes the rock at index ai; a Large or Medium one leaves two
     * fragments one rung down at its place, added at the end of the list.
     */
    method SplitAsteroid(ai: nat)
      requires ai < |asteroids| && ids.Valid() && Unit(rng)
      modifies this`asteroids, this`drawn, ids`lastAsteroid, ids`rocks
      ensures ids.Valid()
      ensures asteroids == Split(old(asteroids), ai, rng, old(drawn), old(ids.lastAsteroid) + 1, math)
      ensures var n := Pieces(old(asteroids[ai]).size);
              drawn == old(drawn) + 5 * n && ids.lastAsteroid == old(ids.lastAsteroid) + n
    {
      var parent := asteroids[ai];
      asteroids := asteroids[..ai] + asteroids[ai + 1..];
      if parent.size != Small {
        AddFragments(parent);
      }
    }

    /** Appends the two fragments of a Large or Medium rock, numbered and drawn in turn. */
    method AddFragments(parent: Asteroid)
      requires parent.size != Small && ids.Valid() && Unit(rng)
      modifies this`asteroids, this`drawn, ids`lastAsteroid, ids`rocks
      ensures ids.Valid()
      ensures asteroids == old(asteroids) + Fragments(parent, rng, old(drawn), old(ids.lastAsteroid) + 1, math, 2)
      ensures drawn == old(drawn) + 10 && ids.lastAsteroid == old(ids.lastAsteroid) + 2
    {
      ghost var rest := asteroids;
      var p, id := drawn, ids.lastAsteroid + 1;
      var i := 0;
      while i < 2
        invariant 0 <= i <= 2 && ids.Valid()
        invariant drawn == p + 5 * i && ids.lastAsteroid == id - 1 + i
        invariant asteroids == rest + Fragments(parent, rng, p, id, math, i)
      {
        var newId := ids.NextAsteroid();
        assert newId == id + i;
        var rock := Fragment(parent, i, rng, p + 5 * i, id + i, math);
        FragmentsGrow(rest, asteroids, parent, rng, p, id, math, i, rock);
        asteroids := asteroids + [rock];
        drawn := drawn + 5;
        i := i + 1;
      }
    }

    /**
     * Bullets against rocks, from the back of both lists: each bullet that
     * touches a rock scores its owner the rock's points, leaves an
     * explosion, splits the rock and is removed. `hits` lists the hits in
     * the order they happened.
     */
    method CheckBulletAsteroidCollisions(explosions: seq<Explosion>) returns (ex: seq<Explosion>, ghost hits: seq<Hit>)
      requires Valid() && ids.Valid() && Unit(rng) && player2.Some?
      modifies this`player1, this`player2, this`bullets, this`asteroids, this`drawn, this`asteroidsChanged
      modifies ids`lastAsteroid, ids`rocks
      ensures Valid() && ids.Valid() && player2.Some?
      ensures Unscored(player1) == Unscored(old(player1)) && player1.score == old(player1.score) + Gain(hits, 1)
      ensures Unscored(player2.value) == Unscored(old(player2.value)) && player2.value.score == old(player2.value.score) + Gain(hits, 2)
      ensures ex == explosions + Bursts(hits)
      ensures |hits| == |old(bullets)| - |bullets|
      ensures asteroidsChanged == (old(asteroidsChanged) || hits != [])
      ensures var v := Salvo(Pass(old(bullets), old(asteroids), old(drawn), old(ids.lastAsteroid) + 1), |old(bullets)|, rng, math);
              Pass(bullets, asteroids, drawn, ids.lastAsteroid + 1) == v.0 && hits == v.1
    {
      ex := explosions;
      hits := [];
      ghost var cur := Pass(bullets, asteroids, drawn, ids.lastAsteroid + 1);
      ghost var goal := Salvo(cur, |bullets|, rng, math);
      var bi := |bullets| - 1;
      while bi >= 0
        invariant -1 <= bi < |bullets|
        invariant Valid() && ids.Valid()
        invariant Accounted(old(player1), old(player2.value), |old(bullets)|, old(asteroidsChanged), explosions, ex, hits)
        invariant OnCourse(goal, hits, cur, bi + 1)
        decreases bi + 1
      {
        ex, hits, cur := Volley(bi, old(player1), old(player2.value), |old(bullets)|, old(asteroidsChanged), explosions, ex, hits, cur, goal);
        bi := bi - 1;
      }
    }

    /**
     * The fold's view of the pass: cur is the current state, and the hits so
     * far followed by those of the fold over bullets n - 1, ..., 0 from cur
     * make up goal.
     */
    ghost predicate OnCourse(goal: (Pass, seq<Hit>), hits: seq<Hit>, cur: Pass, n: nat)
      reads this`bullets, this`asteroids, this`drawn, ids
    {
      && Unit(rng)
      && cur == Pass(bullets, asteroids, drawn, ids.lastAsteroid + 1)
      && n <= |cur.bullets|
      && goal.0 == Salvo(cur, n, rng, math).0 && goal.1 == hits + Salvo(cur, n, rng, math).1
    }

    /** One pass of the collision loop: Record for bullet bi, which keeps the pass on course for the fold. */
    method Volley(bi: nat, ghost o1: Ship, ghost o2: Ship, ghost b0: nat, ghost changed0: bool,
                  ghost explosions: seq<Explosion>, ex0: seq<Explosion>, ghost hits0: seq<Hit>,
                  ghost cur: Pass, ghost goal: (Pass, seq<Hit>))
      returns (ex: seq<Explosion>, ghost hits: seq<Hit>, ghost cur': Pass)
      requires bi < |bullets| && Valid() && ids.Valid() && Unit(rng)
      requires Accounted(o1, o2, b0, changed0, explosions, ex0, hits0)
      requires OnCourse(goal, hits0, cur, bi + 1)
      modifies this`player1, this`player2, this`bullets, this`asteroids, this`drawn, this`asteroidsChanged
      modifies ids`lastAsteroid, ids`rocks
      ensures Valid() && ids.Valid() && bi <= |bullets|
      ensures Accounted(o1, o2, b0, changed0, explosions, ex, hits)
      ensures OnCourse(goal, hits, cur', bi)
    {
      SalvoOn(goal, hits0, cur, bi, rng, math);
      ex, hits := Record(bi, o1, o2, b0, changed0, explosions, ex0, hits0);
      cur' := ShootOne(cur, bi, rng, math);
    }

    /**
     * The running account of the collision pass against the state it
     * started from (ships o1 and o2, b0 bullets, the change flag changed0):
     * the ships differ only by the points of the hits so far, one burst per
     * hit has been added, and one bullet has gone per hit.
     */
    ghost predicate Accounted(o1: Ship, o2: Ship, b0: nat, changed0: bool,
                              explosions: seq<Explosion>, ex: seq<Explosion>, hits: seq<Hit>)
      reads this`player1, this`player2, this`bullets, this`asteroidsChanged
    {
      && player2.Some?
      && Unscored(player1) == Unscored(o1) && player1.score == o1.score + Gain(hits, 1)
      && Unscored(player2.value) == Unscored(o2) && player2.value.score == o2.score + Gain(hits, 2)
      && ex == explosions + Bursts(hits)
      && |hits| == b0 - |bullets|
      && asteroidsChanged == (changed0 || hits != [])
    }

    /** One step of the collision pass: bullet bi is shot and its hit, if any, entered in the account. */
    method Record(bi: nat, ghost o1: Ship, ghost o2: Ship, ghost b0: nat, ghost changed0: bool,
                  ghost explosions: seq<Explosion>, ex0: seq<Explosion>, ghost hits0: seq<Hit>)
      returns (ex: seq<Explosion>, ghost hits: seq<Hit>)
      requires bi < |bullets| && Valid() && ids.Valid() && Unit(rng)
      requires Accounted(o1, o2, b0, changed0, explosions, ex0, hits0)
      modifies this`player1, this`player2, this`bullets, this`asteroids, this`drawn, this`asteroidsChanged
      modifies ids`lastAsteroid, ids`rocks
      ensures Valid() && ids.Valid() && bi <= |bullets|
      ensures Accounted(o1, o2, b0, changed0, explosions, ex, hits)
      ensures var s := Pass(old(bullets), old(asteroids), old(drawn), old(ids.lastAsteroid) + 1);
              && Pass(bullets, asteroids, drawn, ids.lastAsteroid + 1) == ShootOne(s, bi, rng, math)
              && hits == hits0 + (if HitBy(s, bi).Some? then [HitBy(s, bi).value] else [])
    {
      ex, hits := ex0, hits0;
      ghost var p1, p2 := player1, player2.value;
      var hit := Shoot(bi);
      if hit.Some? {
        Tally(o1, p1, player1, hits, hit.value, 1);
        Tally(o2, p2, player2.value, hits, hit.value, 2);
        HitsStep(hits, hit.value);
        assert ex + [Burst(hit.value.rock)] == explosions + (Bursts(hits) + [Burst(hit.value.rock)]);
        ex := ex + [Burst(hit.value.rock)];
        hits := hits + [hit.value];
      }
    }

    /**
     * Bullet bi against the rocks: if it touches one (the last in the list
     * it touches), its owner scores the rock's points, the rock splits and
     * the bullet is removed; otherwise nothing changes.
     */
    method Shoot(bi: nat) returns (hit: Option<Hit>)
      requires bi < |bullets| && Valid() && ids.Valid() && Unit(rng) && player2.Some?
      modifies this`player1, this`player2, this`bullets, this`asteroids, this`drawn, this`asteroidsChanged
      modifies ids`lastAsteroid, ids`rocks
      ensures Valid() && ids.Valid() && player2.Some?
      ensures asteroidsChanged == (old(asteroidsChanged) || hit.Some?)
      ensures var s := Pass(old(bullets), old(asteroids), old(drawn), old(ids.lastAsteroid) + 1);
              && hit == HitBy(s, bi)
              && Pass(bullets, asteroids, drawn, ids.lastAsteroid + 1) == ShootOne(s, bi, rng, math)
      ensures hit.None? ==> player1 == old(player1) && player2 == old(player2)
      ensures hit.Some? ==>
                && Unscored(player1) == Unscored(old(player1)) && Unscored(player2.value) == Unscored(old(player2.value))
                && player1.score == old(player1.score) + (if hit.value.owner == 1 then Points(hit.value.rock.size) else 0)
                && player2.value.score == old(player2.value.score) + (if hit.value.owner == 2 then Points(hit.value.rock.size) else 0)
    {
      ghost var s := Pass(bullets, asteroids, drawn, ids.lastAsteroid + 1);
      var bullet := bullets[bi];
      var found := FindHit(bullet.x, bullet.y, BulletRadius);
      if found.None? {
        return None;
      }
      var rock := asteroids[found.value];
      ShotLands(s, bi, found.value, rng, math);
      Impact(bi, found.value);
      Credit(bullet.ownerPlayer, Points(rock.size));
      hit := Some(Hit(bullet.ownerPlayer, rock));
    }

    /** Bullet bi lands on rock ai: the rock splits and the bullet goes, as ShootOne says. */
    method Impact(bi: nat, ai: nat)
      requires bi < |bullets| && Valid() && ids.Valid() && Unit(rng)
      requires LastHit(asteroids, bullets[bi].x, bullets[bi].y, BulletRadius) == Some(ai)
      modifies this`bullets, this`asteroids, this`drawn, this`asteroidsChanged, ids`lastAsteroid, ids`rocks
      ensures Valid() && ids.Valid() && asteroidsChanged
      ensures Pass(bullets, asteroids, drawn, ids.lastAsteroid + 1)
              == ShootOne(old(Pass(bullets, asteroids, drawn, ids.lastAsteroid + 1)), bi, rng, math)
    {
      ghost var s := Pass(bullets, asteroids, drawn, ids.lastAsteroid + 1);
      ShotLands(s, bi, ai, rng, math);
      SplitAsteroid(ai);
      DropBullet(bi);
      asteroidsChanged := true;
    }

    /** The ship of seat n (seat 2 for any n but 1) scores the given points; nothing else changes. */
    method Credit(n: int, points: int)
      requires Valid() && player2.Some?
      modifies this`player1, this`player2
      ensures Valid() && player2.Some?
      ensures Unscored(player1) == Unscored(old(player1)) && Unscored(player2.value) == Unscored(old(player2.value))
      ensures player1.score == old(player1.score) + (if n == 1 then points else 0)
      ensures player2.value.score == old(player2.value.score) + (if n == 1 then 0 else points)
    {
      if n == 1 {
        player1 := player1.(score := player1.score + points);
      } else {
        player2 := Some(player2.value.(score := player2.value.score + points));
      }
    }

    /** Removes bullet bi, keeping the order of the others. */
    method DropBullet(bi: nat)
      requires Valid() && bi < |bullets|
      modifies this`bullets
      ensures Valid() && bullets == old(bullets[..bi] + bullets[bi + 1..])
    {
      OwnedRemove(bullets, bi, 1);
      OwnedRemove(bullets, bi, 2);
      bullets := bullets[..bi] + bullets[bi + 1..];
    }

    /**
     * Seat n's ship against the rocks: a live, unshielded ship touching a
     * rock (the last one in the list it touches) is struck, and the rock
     * explodes and splits. At most one rock is hit.
     */
    method CheckShipAsteroidCollisions(n: int, explosions: seq<Explosion>) returns (ex: seq<Explosion>)
      requires Valid() && ids.Valid() && Unit(rng) && (n == 1 || n == 2) && player2.Some?
      modifies this`player1, this`player2, this`asteroids, this`drawn, this`asteroidsChanged
      modifies ids`lastAsteroid, ids`rocks
      ensures Valid() && ids.Valid() && player2.Some?
      ensures n == 1 ==> player2 == old(player2)
      ensures n == 2 ==> player1 == old(player1)
      ensures var s := old(ShipOf(n)); var hit := ShipHit(s, old(asteroids));
              && (hit.None? ==> && ShipOf(n) == s && asteroids == old(asteroids) && ex == explosions
                                && asteroidsChanged == old(asteroidsChanged)
                                && drawn == old(drawn) && ids.lastAsteroid == old(ids.lastAsteroid))
              && (hit.Some? ==> && hit.value < |old(asteroids)| && ShipOf(n) == Struck(s) && asteroidsChanged
                                && ex == explosions + [Explosion(s.x, s.y, "ship"), Burst(old(asteroids)[hit.value])]
                                && asteroids == Split(old(asteroids), hit.value, rng, old(drawn), old(ids.lastAsteroid) + 1, math)
                                && var k := Pieces(old(asteroids)[hit.value].size);
                                   drawn == old(drawn) + 5 * k && ids.lastAsteroid == old(ids.lastAsteroid) + k)
    {
      ex := explosions;
      var s := ShipOf(n);
      if !s.alive || s.invulnerableTicks > 0 {
        return;
      }
      var hit := FindHit(s.x, s.y, ShipRadius);
      if hit.None? {
        return;
      }
      ex := Crash(n, hit.value, explosions);
    }

    /** Seat n's ship hits rock ai: the ship is struck, both explode and the rock splits. */
    method Crash(n: int, ai: nat, explosions: seq<Explosion>) returns (ex: seq<Explosion>)
      requires Valid() && ids.Valid() && Unit(rng) && (n == 1 || n == 2) && player2.Some? && ai < |asteroids|
      requires ShipOf(n).alive
      modifies this`player1, this`player2, this`asteroids, this`drawn, this`asteroidsChanged
      modifies ids`lastAsteroid, ids`rocks
      ensures Valid() && ids.Valid() && player2.Some?
      ensures n == 1 ==> player2 == old(player2)
      ensures n == 2 ==> player1 == old(player1)
      ensures ShipOf(n) == Struck(old(ShipOf(n))) && asteroidsChanged
      ensures ex == explosions + [Explosion(old(ShipOf(n)).x, old(ShipOf(n)).y, "ship"), Burst(old(asteroids)[ai])]
      ensures asteroids == Split(old(asteroids), ai, rng, old(drawn), old(ids.lastAsteroid) + 1, math)
      ensures var k := Pieces(old(asteroids)[ai].size);
              drawn == old(drawn) + 5 * k && ids.lastAsteroid == old(ids.lastAsteroid) + k
    {
      var s := ShipOf(n);
      ex := explosions + [Explosion(s.x, s.y, "ship"), Burst(asteroids[ai])];
      SplitAsteroid(ai);
      asteroidsChanged := true;
      SetShip(n, Struck(s));
    }

    /**
     * The wave clock: a cleared board starts a 32-tick pause; when the pause
     * runs out on a still-empty board the next wave spawns, and reaching
     * wave 4, 7, 10, ... gives each ship a nuke.
     */
    method CheckWave()
      requires Valid() && ids.Valid() && Fair(rng) && player2.Some? && wave >= 1
      modifies this`wavePauseRemaining, this`wave, this`player1, this`player2
      modifies this`asteroids, this`drawn, this`asteroidsChanged, ids`lastAsteroid, ids`rocks
      ensures Valid() && ids.Valid() && player2.Some?
      ensures var advance := old(asteroids) == [] && old(wavePauseRemaining) == 1;
              && (!advance ==> wave == old(wave) && asteroids == old(asteroids)
                               && player1 == old(player1) && player2 == old(player2))
              && (advance ==> && wave == old(wave) + 1 && |asteroids| == WaveSize(wave)
                              && (forall k :: 0 <= k < |asteroids| ==> asteroids[k].size == Large)
                              && player1 == old(player1).(nukesRemaining := old(player1.nukesRemaining) + (if NukeWave(wave) then 1 else 0))
                              && player2 == Some(old(player2.value).(nukesRemaining := old(player2.value.nukesRemaining) + (if NukeWave(wave) then 1 else 0))))
      ensures var pause := if old(asteroids) == [] && old(wavePauseRemaining) <= 0 then WavePauseTicks else old(wavePauseRemaining);
              wavePauseRemaining == if pause > 0 then pause - 1 else pause
    {
      if |asteroids| == 0 && wavePauseRemaining <= 0 {
        wavePauseRemaining := WavePauseTicks;
      }
      if wavePauseRemaining > 0 {
        wavePauseRemaining := wavePauseRemaining - 1;
        if wavePauseRemaining <= 0 && |asteroids| == 0 {
          wave := wave + 1;
          if wave % 3 == 1 && wave > 1 {
            player1 := player1.(nukesRemaining := player1.nukesRemaining + 1);
            player2 := Some(player2.value.(nukesRemaining := player2.value.nukesRemaining + 1));
          }
          SpawnWave();
        }
      }
    }

    /** A spawn point on the arena edge redrawn until it is clear of both ships. */
    method SpawnSpot() returns (x: real, y: real)
      requires Unit(rng) && EventuallySafe(rng, drawn, player1, player2)
      modifies this`drawn
      ensures SafeSpot(x, y, player1, player2) && OnEdge(x, y)
    {
      ghost var start := drawn;
      var p1, p2 := player1, player2;
      ghost var j: nat :| var s := Proposal(rng, start + 2 * j); SafeSpot(s.0, s.1, p1, p2);
      ghost var tries: nat := 0;
      ghost var q := drawn;
      x, y := Propose();
      while !SafeSpot(x, y, p1, p2)
        invariant tries <= j && q == start + 2 * tries && drawn == q + 2
        invariant (x, y) == Proposal(rng, q)
        decreases j - tries
      {
        if tries == j {
          assert false;
        }
        q := drawn;
        x, y := Propose();
        tries := tries + 1;
      }
    }

    /** One proposal: a side, then a point along it. */
    method Propose() returns (x: real, y: real)
      requires Unit(rng)
      modifies this`drawn
      ensures (x, y) == Proposal(rng, old(drawn)) && drawn == old(drawn) + 2
    {
      var edge := NextInt(4);
      var d := NextDouble();
      if edge == 0 {
        x, y := 0.0, d * ArenaHeight;
      } else if edge == 1 {
        x, y := ArenaWidth, d * ArenaHeight;
      } else if edge == 2 {
        x, y := d * ArenaWidth, 0.0;
      } else {
        x, y := d * ArenaWidth, ArenaHeight;
      }
    }

    /**
     * Adds the current wave's rocks: min(wave + 3, 11) Large ones, each on
     * the arena edge clear of both ships, numbered above every earlier rock.
     */
    method SpawnWave()
      requires ids.Valid() && Fair(rng) && wave >= 1
      modifies this`asteroids, this`drawn, this`asteroidsChanged, ids`lastAsteroid, ids`rocks
      ensures ids.Valid() && asteroidsChanged
      ensures |asteroids| == |old(asteroids)| + WaveSize(wave) && asteroids[..|old(asteroids)|] == old(asteroids)
      ensures forall k | |old(asteroids)| <= k < |asteroids| ::
                && asteroids[k].size == Large && OnEdge(asteroids[k].x, asteroids[k].y)
                && SafeSpot(asteroids[k].x, asteroids[k].y, player1, player2)
                && asteroids[k].id !in old(ids.rocks)
    {
      var count := MinInt(4 + wave - 1, 11);
      var i := 0;
      while i < count
        invariant 0 <= i <= count && ids.Valid() && old(ids.rocks) <= ids.rocks
        invariant (forall id | id in old(ids.rocks) :: id <= old(ids.lastAsteroid)) && ids.lastAsteroid >= old(ids.lastAsteroid)
        invariant |asteroids| == |old(asteroids)| + i && asteroids[..|old(asteroids)|] == old(asteroids)
        invariant forall k | |old(asteroids)| <= k < |asteroids| ::
                    && asteroids[k].size == Large && OnEdge(asteroids[k].x, asteroids[k].y)
                    && SafeSpot(asteroids[k].x, asteroids[k].y, player1, player2)
                    && asteroids[k].id > old(ids.lastAsteroid)
      {
        assert EventuallySafe(rng, drawn, player1, player2);
        var x, y := SpawnSpot();
        var id := ids.NextAsteroid();
        asteroids := asteroids + [WaveRock(x, y, wave, rng, drawn, id, math)];
        drawn := drawn + 5;
        i := i + 1;
      }
      asteroidsChanged := true;
    }
  }

  /**
   * The nuke fires at most once per press: once a live ship has taken one
   * tick with its key down, however many more ticks the key stays held its
   * stock of nukes never drops (a new wave may still add one).
   */
  method NukeOncePerPress(g: AsteroidGame, now: int, held: nat) returns (before: int, after: int)
    requires g.Valid() && g.ids.Valid() && Fair(g.rng) && g.status == InProgress
    requires g.p1Input.nuke && g.player1.alive
    modifies g, g.ids
    ensures after >= before
  {
    var _ := g.Tick(now);
    before := g.player1.nukesRemaining;
    var i := 0;
    while i < held
      invariant g.Valid() && g.ids.Valid() && (g.status == InProgress || g.status == GameOver)
      invariant g.p1Input.nuke && g.player1.nukeFired && g.player1.nukesRemaining >= before
    {
      var _ := g.Tick(now);
      i := i + 1;
    }
    after := g.player1.nukesRemaining;
  }
}
