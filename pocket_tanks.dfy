/**
 * Artillery: two tanks on a deformable heightmap take turns choosing a
 * weapon from a random inventory, aiming, and firing shells that fly under
 * gravity, bounce or roll, and explode, damaging tanks and digging
 * craters. Twenty shots, or a tank at zero health, end the match; the
 * higher score wins. The match object is updated in place under a lock, so
 * each public method is one atomic step. Clock readings are integer
 * milliseconds supplied by the caller; the floating-point library is the
 * caller-supplied MathLib.
 */
module PocketTanks {
  import opened Wrappers
  import opened Numerics
  import opened Weapons
  import opened Terrains
  import opened Projectiles

  const ArenaWidth: real := 1200.0
  const ArenaHeight: real := 800.0
  const TurnsPerPlayer: int := 10
  const Gravity: real := 0.15
  const MaxPower: real := 100.0
  const TankWidth: real := 30.0
  const TankHeight: real := 16.0
  const BarrelLength: real := 22.0
  const CountdownDurationTicks: int := 30
  /** Length of the weapon-select and aiming phases, in seconds. */
  const WeaponSelectTimeSec: real := 15.0
  const AimingTimeSec: real := 15.0
  /** Starting columns of the tanks: 20% and 80% of the arena width. */
  const P1StartX: real := 240.0
  const P2StartX: real := 960.0

  datatype Status = Waiting | Countdown | WeaponSelect | Aiming | Firing | GameOver | Abandoned

  /** One tank: position, health (0 to 100), score, the seat's identity, and its aim. */
  datatype Tank = Tank(
    x: real, y: real,
    health: int, score: int,
    name: string, sessionId: string, connectionId: Option<string>,
    angle: real, power: real)

  /** What an explosion reports: where, how big, whom it hurt and the standings after it. */
  datatype ExplosionEvent = ExplosionEvent(
    x: real, y: real, radius: real, weaponType: WeaponType,
    targetPlayer: int, damage: real, directHit: bool,
    p1Health: int, p2Health: int, p1Score: int, p2Score: int)

  /** A point event: a bounce, or one step of a roller along the ground. */
  datatype Spot = Spot(x: real, y: real)

  /** A live shell's position and its index in the shell list. */
  datatype ProjectilePosition = ProjectilePosition(x: real, y: real, index: int)

  /** What one physics tick reports to the clients. */
  datatype TickResult = TickResult(
    projectiles: seq<ProjectilePosition>,
    explosions: seq<ExplosionEvent>,
    bounces: seq<Spot>,
    rollerTicks: seq<Spot>,
    firingComplete: bool)

  const EmptyTick: TickResult := TickResult([], [], [], [], false)

  /** Statuses in which the game loop drives the match. */
  predicate Active(s: Status)
  {
    s == Countdown || s == WeaponSelect || s == Aiming || s == Firing
  }

  /** Distance from a point to a tank's reference point. */
  function DistanceToTank(x: real, y: real, t: Tank, m: MathLib): real
  {
    var dx := x - t.x;
    var dy := y - t.y;
    m.sqrt(dx * dx + dy * dy)
  }

  /**
   * Damage a blast of weapon `kind` at (ex, ey) does to tank t: none at or
   * beyond the blast radius, otherwise falling off linearly from the
   * weapon's full damage at the centre, half as much again within half a
   * tank width, and never negative.
   */
  function CalculateDamage(ex: real, ey: real, t: Tank, kind: WeaponType, m: MathLib): (d: real)
    ensures d >= 0.0
    ensures DistanceToTank(ex, ey, t, m) >= Get(kind).blastRadius ==> d == 0.0
    ensures Sound(m) ==> d <= 1.5 * Get(kind).damage
  {
    var w := Get(kind);
    var dist := DistanceToTank(ex, ey, t, m);
    if dist >= w.blastRadius then 0.0
    else
      var damage := w.damage * (1.0 - dist / w.blastRadius);
      FalloffAtMostFull(w.damage, dist, w.blastRadius, Sound(m));
      Max(0.0, if dist < TankWidth / 2.0 then damage * 1.5 else damage)
  }

  /** Linear falloff never exceeds the full damage when the distance is not negative. */
  lemma FalloffAtMostFull(full: real, dist: real, radius: real, sound: bool)
    requires full > 0.0 && radius > 0.0 && (sound ==> dist >= 0.0)
    ensures sound ==> full * (1.0 - dist / radius) <= full
  {
    if sound {
      var q := dist / radius;
      assert q >= 0.0;
      NonNegativeProduct(full, q);
      assert full * (1.0 - q) == full - full * q;
    }
  }

  /** A tank's health lies in [0, 100] and its score is not negative. */
  predicate TankOk(t: Tank)
  {
    0 <= t.health <= 100 && t.score >= 0
  }

  /** Health after taking damage d: reduced by d rounded, but never below zero. */
  function Hurt(health: int, d: real): (h: int)
    requires d >= 0.0
    ensures 0 <= h && (health >= 0 ==> h <= health)
    ensures health - Round(d) >= 0 ==> h == health - Round(d)
  {
    MaxInt(0, health - Round(d))
  }

  /** An angle in degrees, in radians. */
  function Radians(degrees: real, m: MathLib): real
  {
    degrees * m.pi / 180.0
  }

  /** The barrel tip, where every shell of a shot starts. */
  function TipX(t: Tank, m: MathLib): real
  {
    t.x + m.cos(Radians(t.angle, m)) * BarrelLength
  }

  function TipY(t: Tank, m: MathLib): real
  {
    t.y - m.sin(Radians(t.angle, m)) * BarrelLength
  }

  /** Launch speed: power as a fraction of the maximum, times 12, times the weapon's multiplier. */
  function PowerScale(t: Tank, w: WeaponData): real
  {
    t.power / MaxPower * 12.0 * w.velocityMultiplier
  }

  /** Launch angle (radians) of shell i: a spread shot fans out around the aim. */
  function ShotAngle(t: Tank, w: WeaponData, i: int, m: MathLib): real
  {
    if w.projectileCount > 1 then
      Radians(t.angle + (i as real - (w.projectileCount - 1) as real / 2.0) * w.spreadAngle, m)
    else
      Radians(t.angle, m)
  }

  function LaunchVelocityX(t: Tank, w: WeaponData, i: int, m: MathLib): real
  {
    m.cos(ShotAngle(t, w, i, m)) * PowerScale(t, w)
  }

  function LaunchVelocityY(t: Tank, w: WeaponData, i: int, m: MathLib): real
  {
    -m.sin(ShotAngle(t, w, i, m)) * PowerScale(t, w)
  }

  /**
   * The barrel tip lies one barrel length from the tank's centre, for a
   * library whose cosine and sine of the aim satisfy cos² + sin² = 1.
   */
  lemma TipOnBarrel(t: Tank, m: MathLib)
    requires var a := Radians(t.angle, m); m.cos(a) * m.cos(a) + m.sin(a) * m.sin(a) == 1.0
    ensures var dx, dy := TipX(t, m) - t.x, TipY(t, m) - t.y;
            dx * dx + dy * dy == BarrelLength * BarrelLength
  {
    var c, s := m.cos(Radians(t.angle, m)), m.sin(Radians(t.angle, m));
    assert TipX(t, m) == t.x + c * BarrelLength;
    assert TipY(t, m) == t.y - s * BarrelLength;
    assert (c * BarrelLength) * (c * BarrelLength) == (c * c) * (BarrelLength * BarrelLength);
    assert (-(s * BarrelLength)) * (-(s * BarrelLength)) == (s * s) * (BarrelLength * BarrelLength);
  }

  /**
   * A shell leaves the barrel at PowerScale speed, for a library whose
   * cosine and sine of the launch angle satisfy cos² + sin² = 1.
   */
  lemma LaunchSpeed(t: Tank, w: WeaponData, i: int, m: MathLib)
    requires var a := ShotAngle(t, w, i, m); m.cos(a) * m.cos(a) + m.sin(a) * m.sin(a) == 1.0
    ensures var vx, vy := LaunchVelocityX(t, w, i, m), LaunchVelocityY(t, w, i, m);
            vx * vx + vy * vy == PowerScale(t, w) * PowerScale(t, w)
  {
    var a := ShotAngle(t, w, i, m);
    var c, s, k := m.cos(a), m.sin(a), PowerScale(t, w);
    assert (c * k) * (c * k) == (c * c) * (k * k);
    assert (-s * k) * (-s * k) == (s * s) * (k * k);
  }

  /**
   * The launch speed grows with the power: none at zero, 12 times the
   * weapon's multiplier at full power, and in between for power in range.
   */
  lemma PowerBounds(t: Tank, w: WeaponData)
    requires 0.0 <= t.power <= MaxPower && w.velocityMultiplier >= 0.0
    ensures 0.0 <= PowerScale(t, w) <= 12.0 * w.velocityMultiplier
    ensures t.power == MaxPower ==> PowerScale(t, w) == 12.0 * w.velocityMultiplier
    ensures t.power == 0.0 ==> PowerScale(t, w) == 0.0
  {
    var f := t.power / MaxPower * 12.0;
    assert 0.0 <= f <= 12.0;
    assert PowerScale(t, w) == f * w.velocityMultiplier;
    assert f * w.velocityMultiplier <= 12.0 * w.velocityMultiplier;
  }

  /**
   * A spread fans out evenly about the aim: shells i and count - 1 - i sit
   * at equal and opposite offsets, so their angles average to the aim.
   */
  lemma SpreadSymmetric(t: Tank, w: WeaponData, i: int, m: MathLib)
    requires w.projectileCount > 1
    ensures ShotAngle(t, w, i, m) + ShotAngle(t, w, w.projectileCount - 1 - i, m) == 2.0 * Radians(t.angle, m)
  {
    var h := (w.projectileCount - 1) as real / 2.0;
    var d1, d2 := i as real - h, (w.projectileCount - 1 - i) as real - h;
    assert d1 + d2 == 0.0;
    assert d1 * w.spreadAngle + d2 * w.spreadAngle == (d1 + d2) * w.spreadAngle;
    var x1, x2 := t.angle + d1 * w.spreadAngle, t.angle + d2 * w.spreadAngle;
    assert x1 + x2 == 2.0 * t.angle;
    assert x1 * m.pi + x2 * m.pi == (x1 + x2) * m.pi;
    assert (2.0 * t.angle) * m.pi == 2.0 * (t.angle * m.pi);
  }

  /** The first index of w in s, or -1 when s does not hold it. */
  function IndexOf(s: seq<WeaponType>, w: WeaponType): (i: int)
    ensures -1 <= i < |s|
    ensures i == -1 <==> w !in s
    ensures i >= 0 ==> s[i] == w && forall k :: 0 <= k < i ==> s[k] != w
  {
    if |s| == 0 then -1
    else if s[0] == w then 0
    else
      var k := IndexOf(s[1..], w);
      if k < 0 then -1 else k + 1
  }

  /** The list with the element at i removed: what was before i stays put, what was after moves up one. */
  function RemoveAt(s: seq<WeaponType>, i: int): (r: seq<WeaponType>)
    requires 0 <= i < |s|
    ensures |r| == |s| - 1
    ensures forall k :: 0 <= k < i ==> r[k] == s[k]
    ensures forall k :: i <= k < |r| ==> r[k] == s[k + 1]
  {
    s[..i] + s[i + 1..]
  }

  /** A shell just fired by seat n with weapon w as shell number i of the shot. */
  ghost predicate Launched(p: Projectile, t: Tank, w: WeaponData, i: int, n: int, m: MathLib)
    reads p
  {
    && p.x == TipX(t, m) && p.y == TipY(t, m)
    && p.velocityX == LaunchVelocityX(t, w, i, m) && p.velocityY == LaunchVelocityY(t, w, i, m)
    && p.weaponType == w.kind && p.ownerPlayer == n
    && p.active && p.bounceCount == 0 && p.ticksAlive == 0 && !p.isRolling
  }

  /** A shell's bookkeeping: its bounces stay within its weapon's allowance, and it has an owner seat. */
  predicate ViewOk(v: ShellView)
  {
    && 0 <= v.bounceCount <= Get(v.weaponType).maxBounces
    && (v.ownerPlayer == 1 || v.ownerPlayer == 2)
  }

  ghost predicate ShellOk(p: Projectile)
    reads p
  {
    ViewOk(p.View())
  }

  /** A shell at (x, y) touches tank t: within half the tank's size plus five in each direction. */
  predicate Hits(x: real, y: real, t: Tank)
  {
    Abs(x - t.x) < TankWidth / 2.0 + 5.0 && Abs(y - t.y) < TankHeight / 2.0 + 5.0
  }

  /** A shell has left the arena: more than 50 beyond either side, or 200 below the bottom. */
  predicate OutOfBounds(x: real, y: real)
    ensures OutOfBounds(x, y) ==> x < 0.0 || x > ArenaWidth || y > ArenaHeight
    ensures 0.0 <= x <= ArenaWidth && y <= ArenaHeight ==> !OutOfBounds(x, y)
    ensures y > ArenaHeight + 200.0 || x < -50.0 || x > ArenaWidth + 50.0 ==> OutOfBounds(x, y)
    ensures -50.0 <= x <= ArenaWidth + 50.0 && y <= ArenaHeight + 200.0 ==> !OutOfBounds(x, y)
  {
    x < -50.0 || x > ArenaWidth + 50.0 || y > ArenaHeight + 200.0
  }

  /** `shots` are the shells of one shot by seat n with weapon w: one per projectile, the k-th launched as shell k of the fan. */
  ghost predicate Fan(shots: seq<Projectile>, t: Tank, w: WeaponData, n: int, m: MathLib)
    reads set p | p in shots
  {
    && |shots| == w.projectileCount
    && forall k :: 0 <= k < |shots| ==> Launched(shots[k], t, w, k, n, m)
  }

  /** `after` is `before` with one shot by seat n appended. */
  ghost predicate Volley(before: seq<Projectile>, after: seq<Projectile>, t: Tank, w: WeaponData, n: int, m: MathLib)
    reads set p | p in after
  {
    |before| <= |after| && after[..|before|] == before && Fan(after[|before|..], t, w, n, m)
  }

  /** A heightmap whose every column lies between the floor and the top of the generated band. */
  ghost predicate InBand(h: seq<real>)
  {
    forall x :: 0 <= x < |h| ==> Bedrock <= h[x] <= MaxHeight
  }

  /** An explosion keeps the map in the band: it never digs below the floor and never raises a column. */
  lemma DeformKeepsBand(h: seq<real>, cx: real, r: real, m: MathLib)
    requires Sound(m) && |h| == Width && InBand(h)
    ensures InBand(Deformed(h, cx, r, m.sqrt))
  {
    forall x | 0 <= x < Width
      ensures Bedrock <= Deformed(h, cx, r, m.sqrt)[x] <= MaxHeight
    {
      DeformedBounds(h, cx, r, m, x);
    }
  }

  /** Choosing conserves what a seat holds: the inventory after plus the weapon chosen is what was on offer. */
  lemma ChoiceConserves(offered: seq<WeaponType>, w: WeaponType)
    requires w in offered
    ensures multiset(RemoveAt(offered, IndexOf(offered, w))) + multiset{w} == multiset(offered)
  {
    var i := IndexOf(offered, w);
    SplitAround(offered, i);
  }

  /** A list is the part before position i, the element at i and the part after, as a multiset. */
  lemma SplitAround(s: seq<WeaponType>, i: int)
    requires 0 <= i < |s|
    ensures multiset(RemoveAt(s, i)) + multiset{s[i]} == multiset(s)
  {
    assert s == s[..i] + [s[i]] + s[i + 1..];
  }

  /**
   * A tank after an explosion: it loses the damage it took, rounded (half
   * of it when the shell was its own), never going below zero, and gains
   * as score the rounded damage its own shell did to the opponent.
   */
  function AfterBlast(t: Tank, damage: real, own: bool, dealt: real): (after: Tank)
    requires damage >= 0.0 && dealt >= 0.0
    ensures after == t.(health := after.health, score := after.score)
    ensures t.health >= 0 ==> 0 <= after.health <= t.health
    ensures TankOk(t) ==> TankOk(after)
    ensures after.score >= t.score
    ensures damage == 0.0 && dealt == 0.0 && t.health >= 0 ==> after == t
  {
    t.(health := Hurt(t.health, if own then damage * 0.5 else damage), score := t.score + Round(dealt))
  }

  /** The seat an explosion is reported against: the opponent of the shooter, when the blast reached it. */
  function Target(owner: int, d1: real, d2: real): (r: int)
    ensures 0 <= r <= 2
    ensures r != 0 ==> r == 3 - owner
    ensures r != 0 <==> (owner == 1 && d2 > 0.0) || (owner == 2 && d1 > 0.0)
  {
    if owner == 1 && d2 > 0.0 then 2 else if owner == 2 && d1 > 0.0 then 1 else 0
  }

  /** Which branch of the per-shell checks a live shell takes after moving. */
  datatype Path = OffMap | Bounce | StartRoll | Crater | TankHit | Roll | Fly

  /**
   * What happened to one shell in one tick: it left the arena, bounced,
   * landed and started rolling, blew up on the ground or on a tank, rolled
   * along the ground (blowing up if it has stopped), or flew on.
   */
  datatype Fate =
    | Lost
    | Bounced(at: Spot)
    | Landed
    | Impact(e: ExplosionEvent)
    | Struck(e: ExplosionEvent)
    | Rolled(at: Spot, burst: Option<ExplosionEvent>)
    | Flying(at: Spot)

  function PathOf(f: Fate): Path
  {
    match f
    case Lost => OffMap
    case Bounced(_) => Bounce
    case Landed => StartRoll
    case Impact(_) => Crater
    case Struck(_) => TankHit
    case Rolled(_, _) => Roll
    case Flying(_) => Fly
  }

  /** The explosion a fate caused, if any. */
  function Burst(f: Fate): Option<ExplosionEvent>
  {
    match f
    case Impact(e) => Some(e)
    case Struck(e) => Some(e)
    case Rolled(_, b) => b
    case _ => None
  }

  /**
   * The order of the per-shell checks, for a shell that has just moved to
   * (x, y) above ground level groundY: leaving the arena comes first; then
   * reaching the ground on the map, where a bouncer with bounces left
   * bounces, a roller not yet rolling starts to roll, and anything else
   * explodes; then, after its first five ticks, touching either tank; then
   * following the ground if rolling; otherwise flying on.
   */
  function Route(x: real, y: real, groundY: real, kind: WeaponType, bounceCount: int, isRolling: bool,
                 ticksAlive: int, t1: Tank, t2: Tank): (path: Path)
    ensures path == Fly ==> !isRolling
    ensures path == Roll ==> isRolling
  {
    var w := Get(kind);
    if OutOfBounds(x, y) then OffMap
    else if y >= groundY && 0.0 <= x < Width as real then
      if w.maxBounces > 0 && bounceCount < w.maxBounces then Bounce
      else if w.rolls && !isRolling then StartRoll
      else Crater
    else if ticksAlive > 5 && (Hits(x, y, t1) || Hits(x, y, t2)) then TankHit
    else if isRolling then Roll
    else Fly
  }

  /** A roller that lands slower than 1 sideways is kicked to speed 3 in its direction (right when standing still). */
  function Kick(vx: real): (r: real)
    ensures Abs(r) >= 1.0
    ensures (r >= 0.0) == (vx >= 0.0)
    ensures Abs(vx) >= 1.0 ==> r == vx
    ensures Abs(vx) < 1.0 ==> Abs(r) == 3.0
  {
    if Abs(vx) < 1.0 then (if vx >= 0.0 then 3.0 else -3.0) else vx
  }

  /**
   * The shell after the checks of one tick, for a shell that has just
   * moved to v, above ground level groundY: leaving the arena or exploding
   * puts it out; a bounce counts one more bounce, sends it upward at 60%
   * of its vertical speed and lifts it 2 above the ground; landing as a
   * roller puts it on the ground, still vertically, kicked sideways when
   * slow; a rolling shell follows the ground; a flying one is left as it
   * is. A spent shell never comes back, and its weapon, owner, age and
   * column are never changed.
   */
  function Moved(v: ShellView, groundY: real, t1: Tank, t2: Tank): (v': ShellView)
    ensures v'.weaponType == v.weaponType && v'.ownerPlayer == v.ownerPlayer
    ensures v'.ticksAlive == v.ticksAlive && v'.x == v.x && v'.rollDirection == v.rollDirection
    ensures v'.active ==> v.active
    ensures ViewOk(v) ==> ViewOk(v')
    ensures Route(v.x, v.y, groundY, v.weaponType, v.bounceCount, v.isRolling, v.ticksAlive, t1, t2) == Fly ==> v' == v
    ensures Route(v.x, v.y, groundY, v.weaponType, v.bounceCount, v.isRolling, v.ticksAlive, t1, t2) == Roll ==>
              v' == v.(y := groundY)
    ensures v'.bounceCount != v.bounceCount ==>
              v'.bounceCount == v.bounceCount + 1
              && Route(v.x, v.y, groundY, v.weaponType, v.bounceCount, v.isRolling, v.ticksAlive, t1, t2) == Bounce
  {
    match Route(v.x, v.y, groundY, v.weaponType, v.bounceCount, v.isRolling, v.ticksAlive, t1, t2)
    case OffMap => v.(active := false)
    case Bounce => v.(bounceCount := v.bounceCount + 1, velocityY := -Abs(v.velocityY) * 0.6, y := groundY - 2.0)
    case StartRoll => v.(isRolling := true, y := groundY, velocityY := 0.0, velocityX := Kick(v.velocityX))
    case Crater => v.(active := false)
    case TankHit => v.(active := false)
    case Roll => v.(y := groundY)
    case Fly => v
  }

  /** The fate of a shell that took branch `path`, ending at `at`, with the explosion it caused if any. */
  function FateOf(path: Path, at: Spot, burst: Option<ExplosionEvent>): (f: Fate)
    requires path == Crater || path == TankHit ==> burst.Some?
    ensures PathOf(f) == path
    ensures Burst(f) == if path == Crater || path == TankHit || path == Roll then burst else None
    ensures f.Bounced? || f.Rolled? || f.Flying? ==> f.at == at
  {
    match path
    case OffMap => Lost
    case Bounce => Bounced(at)
    case StartRoll => Landed
    case Crater => Impact(burst.value)
    case TankHit => Struck(burst.value)
    case Roll => Rolled(at, burst)
    case Fly => Flying(at)
  }

  /** Adds what one shell's fate reports to a tick's result; shell i's position is reported only while it is live. */
  function Report(r: TickResult, f: Fate, i: int): (r': TickResult)
    ensures r'.firingComplete == r.firingComplete
    ensures |r.projectiles| <= |r'.projectiles| <= |r.projectiles| + 1 && r'.projectiles[..|r.projectiles|] == r.projectiles
    ensures |r'.projectiles| > |r.projectiles| ==> r'.projectiles[|r.projectiles|].index == i
    ensures |r'.projectiles| > |r.projectiles| <==> f.Flying? || (f.Rolled? && f.burst.None?)
    ensures f.Flying? || (f.Rolled? && f.burst.None?) ==>
              r'.projectiles == r.projectiles + [ProjectilePosition(f.at.x, f.at.y, i)]
    ensures r'.explosions == r.explosions + (if Burst(f).Some? then [Burst(f).value] else [])
  {
    match f
    case Lost => r
    case Bounced(s) => r.(bounces := r.bounces + [s])
    case Landed => r
    case Impact(e) => r.(explosions := r.explosions + [e])
    case Struck(e) => r.(explosions := r.explosions + [e])
    case Rolled(s, None) =>
      r.(rollerTicks := r.rollerTicks + [s], projectiles := r.projectiles + [ProjectilePosition(s.x, s.y, i)])
    case Rolled(s, Some(e)) => r.(rollerTicks := r.rollerTicks + [s], explosions := r.explosions + [e])
    case Flying(s) => r.(projectiles := r.projectiles + [ProjectilePosition(s.x, s.y, i)])
  }

  /** What a shell meets when its checks run: the ground level under it and the two tanks. */
  datatype Scene = Scene(groundY: real, t1: Tank, t2: Tank)

  /**
   * Shell v, met by its checks in scene sc, became v1 with fate f: it went
   * down the branch Route picks for where it is and became what Moved
   * says; it exploded exactly on a crater, a tank hit or a stopped roll;
   * a fate that names a spot names where the shell now is.
   */
  ghost predicate Resolved(v: ShellView, v1: ShellView, f: Fate, sc: Scene)
  {
    && PathOf(f) == Route(v.x, v.y, sc.groundY, v.weaponType, v.bounceCount, v.isRolling, v.ticksAlive, sc.t1, sc.t2)
    && v1 == Moved(v, sc.groundY, sc.t1, sc.t2)
    && (Burst(f).Some? <==> PathOf(f) == Crater || PathOf(f) == TankHit || (PathOf(f) == Roll && !v1.active))
    && (f.Bounced? || f.Rolled? || f.Flying? ==> f.at == Spot(v1.x, v1.y))
  }

  /** Shell v0 took one tick in scene sc and became v1 with fate f: it moved (Ticked), then was Resolved. */
  ghost predicate SteppedBy(v0: ShellView, v1: ShellView, f: Fate, sc: Scene)
  {
    Resolved(Ticked(v0, Gravity), v1, f, sc)
  }

  /** A stepped shell aged by exactly one tick, and a shell left live is one whose fate reports where it is. */
  lemma SteppedAges(v0: ShellView, v1: ShellView, f: Fate, sc: Scene)
    requires v0.active && SteppedBy(v0, v1, f, sc)
    ensures v1.ticksAlive == v0.ticksAlive + 1
    ensures v1.weaponType == v0.weaponType && v1.ownerPlayer == v0.ownerPlayer
    ensures f.Flying? || (f.Rolled? && f.burst.None?) ==> v1.active && f.at == Spot(v1.x, v1.y)
  {
    var v := Ticked(v0, Gravity);
    assert v1 == Moved(v, sc.groundY, sc.t1, sc.t2);
  }

  /**
   * The result of a tick that stepped the shells with the given fates
   * (None for a shell that was already spent), reported in list order.
   */
  function Collect(fates: seq<Option<Fate>>): (r: TickResult)
    ensures !r.firingComplete
    ensures |r.projectiles| <= |fates|
    ensures forall a :: 0 <= a < |r.projectiles| ==> 0 <= r.projectiles[a].index < |fates|
  {
    if fates == [] then EmptyTick
    else
      var k := |fates| - 1;
      var r := Collect(fates[..k]);
      if fates[k].Some? then Report(r, fates[k].value, k) else r
  }

  /** No shell before index k exploded. */
  ghost predicate Calm(fates: seq<Option<Fate>>, k: int)
    requires 0 <= k <= |fates|
  {
    forall j :: 0 <= j < k ==> fates[j].None? || Burst(fates[j].value).None?
  }

  /** `q` names a live shell of the list of shells vs, where it is. */
  ghost predicate Shows(vs: seq<ShellView>, q: ProjectilePosition)
  {
    && 0 <= q.index < |vs|
    && vs[q.index].active
    && q.x == vs[q.index].x
    && q.y == vs[q.index].y
  }

  /** `positions` name live shells of vs where they are, by index, in increasing order of index. */
  ghost predicate Reported(vs: seq<ShellView>, positions: seq<ProjectilePosition>)
  {
    && (forall a :: 0 <= a < |positions| ==> Shows(vs, positions[a]))
    && (forall a, b :: 0 <= a < b < |positions| ==> positions[a].index < positions[b].index)
  }

  /** What every shell of ps is, in list order. */
  ghost function ViewsOf(ps: seq<Projectile>): (vs: seq<ShellView>)
    reads set p | p in ps
    ensures |vs| == |ps|
    ensures forall k {:trigger vs[k]} :: 0 <= k < |ps| ==> vs[k] == ps[k].View()
  {
    seq(|ps|, k requires 0 <= k < |ps| reads ps => ps[k].View())
  }

  /**
   * A walk over the shell list that began with the shells start has
   * reached index |fates|, and the shells are now vs: shell k was stepped
   * (fates[k] is Some) exactly when it was live; spent shells and shells
   * not yet reached are as they were.
   */
  ghost predicate Reached(start: seq<ShellView>, vs: seq<ShellView>, fates: seq<Option<Fate>>)
  {
    && |fates| <= |start| && |vs| == |start|
    && (forall k :: |fates| <= k < |vs| ==> vs[k] == start[k])
    && (forall k {:trigger fates[k]} :: 0 <= k < |fates| ==> (fates[k].Some? <==> start[k].active))
    && (forall k :: 0 <= k < |fates| && fates[k].None? ==> vs[k] == start[k])
  }

  /** Every shell k the walk stepped went from start[k] to vs[k] as SteppedBy says, in scene scenes[k]. */
  ghost predicate AllStepped(start: seq<ShellView>, vs: seq<ShellView>, fates: seq<Option<Fate>>, scenes: seq<Scene>)
    requires |fates| == |scenes| <= |start| && |vs| == |start|
  {
    forall k {:trigger SteppedBy(start[k], vs[k], fates[k].value, scenes[k])} ::
      0 <= k < |fates| && fates[k].Some? ==> SteppedBy(start[k], vs[k], fates[k].value, scenes[k])
  }

  /** r is what the fates report, and names live shells of vs at indices already walked. */
  ghost predicate Reports(vs: seq<ShellView>, fates: seq<Option<Fate>>, r: TickResult)
  {
    && r == Collect(fates)
    && Reported(vs, r.projectiles)
    && (forall a :: 0 <= a < |r.projectiles| ==> r.projectiles[a].index < |fates|)
  }

  /** The walk so far, from start to vs. */
  ghost predicate Walked(start: seq<ShellView>, vs: seq<ShellView>, fates: seq<Option<Fate>>, scenes: seq<Scene>, r: TickResult)
  {
    && |fates| == |scenes|
    && Reached(start, vs, fates)
    && AllStepped(start, vs, fates, scenes)
    && Reports(vs, fates, r)
  }

  /** The ground and the two tanks, as one shell of a tick finds them. */
  datatype World = World(heights: seq<real>, t1: Tank, t2: Tank)

  /** The scene a shell now at v meets after its next move, in world w. */
  function SceneIn(w: World, v: ShellView): Scene
    requires |w.heights| == Width
  {
    Scene(ArenaHeight - HeightOf(w.heights, Ticked(v, Gravity).x), w.t1, w.t2)
  }

  /**
   * World w' is world w after an explosion of weapon `kind` fired by seat
   * `owner` at (x, y): the crater is dug, and each tank is wounded
   * (AfterBlast) and stood back on the new ground.
   */
  ghost predicate BlastOf(w: World, w': World, x: real, y: real, kind: WeaponType, owner: int, m: MathLib)
  {
    && |w.heights| == Width && |w'.heights| == Width
    && w'.heights == Deformed(w.heights, x, Get(kind).blastRadius, m.sqrt)
    && var d1 := CalculateDamage(x, y, w.t1, kind, m);
       var d2 := CalculateDamage(x, y, w.t2, kind, m);
       && w'.t1 == AfterBlast(w.t1, d1, owner == 1, if owner == 1 then d2 else 0.0)
                     .(y := ArenaHeight - HeightOf(w'.heights, w.t1.x))
       && w'.t2 == AfterBlast(w.t2, d2, owner == 2, if owner == 2 then d1 else 0.0)
                     .(y := ArenaHeight - HeightOf(w'.heights, w.t2.x))
  }

  /**
   * One step of a shell fired by seat `owner` takes world w to w':
   * unchanged unless the shell exploded, then as BlastOf says for the
   * explosion's spot and weapon.
   */
  ghost predicate Moves(w: World, w': World, owner: int, f: Option<Fate>, m: MathLib)
  {
    if f.Some? && Burst(f.value).Some? then
      var e := Burst(f.value).value;
      BlastOf(w, w', e.x, e.y, e.weaponType, owner, m)
    else w' == w
  }

  /**
   * The worlds a walk passed through: shell k met world k, in which its
   * scene lies, and its step took world k to world k + 1 (Moves), so a
   * shell after an explosion meets the dug ground and the wounded tanks.
   */
  ghost predicate Chained(start: seq<ShellView>, worlds: seq<World>, fates: seq<Option<Fate>>, scenes: seq<Scene>, m: MathLib)
  {
    && |worlds| == |fates| + 1 && |fates| == |scenes| <= |start|
    && (forall k :: 0 <= k < |worlds| ==> |worlds[k].heights| == Width)
    && (forall k {:trigger SceneIn(worlds[k], start[k])} ::
          0 <= k < |fates| && fates[k].Some? ==> scenes[k] == SceneIn(worlds[k], start[k]))
    && (forall k {:trigger Moves(worlds[k], worlds[k + 1], start[k].ownerPlayer, fates[k], m)} ::
          0 <= k < |fates| ==> Moves(worlds[k], worlds[k + 1], start[k].ownerPlayer, fates[k], m))
  }

  /**
   * One more shell of a chained walk: when shell i = |fates| met the last
   * world and took it to w', the walk is chained one step further.
   */
  lemma ChainOn(start: seq<ShellView>, worlds: seq<World>, fates: seq<Option<Fate>>, scenes: seq<Scene>, m: MathLib,
                f: Option<Fate>, sc: Scene, w': World)
    requires Chained(start, worlds, fates, scenes, m) && |fates| < |start|
    requires |w'.heights| == Width
    requires f.Some? ==> sc == SceneIn(worlds[|fates|], start[|fates|])
    requires Moves(worlds[|fates|], w', start[|fates|].ownerPlayer, f, m)
    ensures Chained(start, worlds + [w'], fates + [f], scenes + [sc], m)
  {
    var worlds', fates', scenes' := worlds + [w'], fates + [f], scenes + [sc];
    forall k | 0 <= k < |fates'|
      ensures Moves(worlds'[k], worlds'[k + 1], start[k].ownerPlayer, fates'[k], m)
    {
      if k < |fates| {
        assert worlds'[k] == worlds[k] && worlds'[k + 1] == worlds[k + 1] && fates'[k] == fates[k];
      }
    }
    forall k | 0 <= k < |fates'| && fates'[k].Some?
      ensures scenes'[k] == SceneIn(worlds'[k], start[k])
    {
      if k < |fates| {
        assert worlds'[k] == worlds[k] && fates'[k] == fates[k] && scenes'[k] == scenes[k];
      }
    }
  }

  /**
   * Until a shell of the tick explodes the world stays the one the tick
   * began with, so a shell stepped before the first explosion meets the
   * ground and the tanks of the tick's start.
   */
  lemma {:induction false} CalmWorld(start: seq<ShellView>, worlds: seq<World>, fates: seq<Option<Fate>>,
                                     scenes: seq<Scene>, m: MathLib, k: int)
    requires Chained(start, worlds, fates, scenes, m) && 0 <= k <= |fates| && Calm(fates, k)
    ensures worlds[k] == worlds[0]
    ensures k < |fates| && fates[k].Some? ==> scenes[k] == SceneIn(worlds[0], start[k])
  {
    if k > 0 {
      var j := k - 1;
      CalmWorld(start, worlds, fates, scenes, m, j);
      assert Moves(worlds[j], worlds[j + 1], start[j].ownerPlayer, fates[j], m);
    }
  }

  /**
   * One more shell of the walk: shell i = |fates| is stepped when live (and
   * left alone when spent) while no other shell changes; the walk then
   * reaches i + 1.
   */
  lemma WalkOn(start: seq<ShellView>, vs: seq<ShellView>, vs': seq<ShellView>,
               fates: seq<Option<Fate>>, scenes: seq<Scene>, r: TickResult, f: Option<Fate>, sc: Scene)
    requires Walked(start, vs, fates, scenes, r)
    requires |fates| < |vs| == |vs'|
    requires forall k :: 0 <= k < |vs| && k != |fates| ==> vs'[k] == vs[k]
    requires f.Some? <==> vs[|fates|].active
    requires f.None? ==> vs'[|fates|] == vs[|fates|]
    requires f.Some? ==> SteppedBy(vs[|fates|], vs'[|fates|], f.value, sc)
    ensures Walked(start, vs', fates + [f], scenes + [sc], if f.Some? then Report(r, f.value, |fates|) else r)
  {
    ReachOn(start, vs, vs', fates, f);
    StepOn(start, vs, vs', fates, scenes, f, sc);
    if f.Some? {
      SteppedAges(vs[|fates|], vs'[|fates|], f.value, sc);
    }
    ReportOn(vs, vs', fates, r, f);
  }

  lemma ReachOn(start: seq<ShellView>, vs: seq<ShellView>, vs': seq<ShellView>, fates: seq<Option<Fate>>, f: Option<Fate>)
    requires Reached(start, vs, fates) && |fates| < |vs| == |vs'|
    requires forall k :: 0 <= k < |vs| && k != |fates| ==> vs'[k] == vs[k]
    requires f.Some? <==> vs[|fates|].active
    requires f.None? ==> vs'[|fates|] == vs[|fates|]
    ensures Reached(start, vs', fates + [f])
  {
  }

  lemma StepOn(start: seq<ShellView>, vs: seq<ShellView>, vs': seq<ShellView>,
               fates: seq<Option<Fate>>, scenes: seq<Scene>, f: Option<Fate>, sc: Scene)
    requires |fates| == |scenes| < |start| && |vs| == |start| == |vs'| && AllStepped(start, vs, fates, scenes)
    requires forall k :: 0 <= k < |vs| && k != |fates| ==> vs'[k] == vs[k]
    requires vs[|fates|] == start[|fates|]
    requires f.Some? ==> SteppedBy(vs[|fates|], vs'[|fates|], f.value, sc)
    ensures AllStepped(start, vs', fates + [f], scenes + [sc])
  {
    var fates', scenes' := fates + [f], scenes + [sc];
    forall k | 0 <= k < |fates'| && fates'[k].Some?
      ensures SteppedBy(start[k], vs'[k], fates'[k].value, scenes'[k])
    {
      if k < |fates| {
        assert fates'[k] == fates[k] && scenes'[k] == scenes[k] && vs'[k] == vs[k];
      }
    }
  }

  /** Collect reads the fates in list order: one more fate adds its report last. */
  lemma CollectOn(fates: seq<Option<Fate>>, f: Option<Fate>)
    ensures Collect(fates + [f]) == if f.Some? then Report(Collect(fates), f.value, |fates|) else Collect(fates)
  {
    assert (fates + [f])[..|fates|] == fates;
  }

  lemma ReportOn(vs: seq<ShellView>, vs': seq<ShellView>, fates: seq<Option<Fate>>, r: TickResult, f: Option<Fate>)
    requires Reports(vs, fates, r) && |fates| < |vs| == |vs'|
    requires forall k :: 0 <= k < |vs| && k != |fates| ==> vs'[k] == vs[k]
    requires f.Some? && (f.value.Flying? || (f.value.Rolled? && f.value.burst.None?)) ==>
               vs'[|fates|].active && f.value.at == Spot(vs'[|fates|].x, vs'[|fates|].y)
    ensures Reports(vs', fates + [f], if f.Some? then Report(r, f.value, |fates|) else r)
  {
    var i := |fates|;
    var r' := if f.Some? then Report(r, f.value, i) else r;
    CollectOn(fates, f);
    if f.Some? && (f.value.Flying? || (f.value.Rolled? && f.value.burst.None?)) {
      ShowsOn(vs, vs', r.projectiles, [ProjectilePosition(vs'[i].x, vs'[i].y, i)], i);
    } else {
      assert r'.projectiles == r.projectiles + [];
      ShowsOn(vs, vs', r.projectiles, [], i);
    }
  }

  /** Reported positions stay shown while other shells change; shell i, live, may be added last. */
  lemma ShowsOn(vs: seq<ShellView>, vs': seq<ShellView>, ps: seq<ProjectilePosition>, extra: seq<ProjectilePosition>, i: int)
    requires Reported(vs, ps) && forall a :: 0 <= a < |ps| ==> ps[a].index < i
    requires 0 <= i < |vs| == |vs'| && forall k :: 0 <= k < |vs| && k != i ==> vs'[k] == vs[k]
    requires extra == [] || (extra == [ProjectilePosition(vs'[i].x, vs'[i].y, i)] && vs'[i].active)
    ensures Reported(vs', ps + extra)
    ensures forall a :: 0 <= a < |ps + extra| ==> (ps + extra)[a].index < i + 1
  {
    var ps' := ps + extra;
    forall a | 0 <= a < |ps|
      ensures Shows(vs', ps'[a])
    {
      assert ps'[a] == ps[a] && Shows(vs, ps[a]);
    }
  }

  class TanksGame {
    const shortCode: string
    var status: Status
    var player1: Tank
    var player2: Option<Tank>
    var isAiGame: bool
    var aiSessionId: Option<string>
    const terrain: Terrain
    var currentTurn: int
    var turnNumber: int
    var projectiles: seq<Projectile>
    var player1Weapons: seq<WeaponType>
    var player2Weapons: seq<WeaponType>
    var selectedWeapon: Option<WeaponType>
    var countdownTicks: int
    const createdAt: int
    var startedAt: Option<int>
    var phaseStartedAt: Option<int>

    /**
     * Healths stay in [0, 100] and scores are never negative; every status
     * after Waiting has a second tank; the turn belongs to seat 1 or 2;
     * aiming always has a weapon in hand; and while turns are being played
     * there have been at most twenty of them.
     */
    ghost predicate Valid()
      reads this`player1, this`player2, this`status, this`currentTurn, this`selectedWeapon, this`turnNumber
    {
      && terrain.Valid()
      && 0 <= player1.health <= 100 && player1.score >= 0
      && (player2.Some? ==> 0 <= player2.value.health <= 100 && player2.value.score >= 0)
      && (status != Waiting ==> player2.Some?)
      && (currentTurn == 1 || currentTurn == 2)
      && (status == Aiming ==> selectedWeapon.Some?)
      && 1 <= turnNumber
      && (status == WeaponSelect || status == Aiming || status == Firing ==> turnNumber <= 2 * TurnsPerPlayer)
    }

    /** Shells in flight never bounce more than their weapon allows and are distinct objects. */
    ghost predicate ShellsOk()
      reads this`projectiles, set p | p in projectiles
    {
      && (forall i :: 0 <= i < |projectiles| ==> ShellOk(projectiles[i]))
      && (forall i, j :: 0 <= i < j < |projectiles| ==> projectiles[i] != projectiles[j])
    }

    /** The ground stays between the floor and the top of the generated band. */
    ghost predicate Grounded()
      reads terrain.heights
    {
      terrain.Valid() && InBand(terrain.heights[..])
    }

    /** The inventory of seat n. */
    function Inventory(n: int): seq<WeaponType>
      reads this`player1Weapons, this`player2Weapons
    {
      if n == 1 then player1Weapons else player2Weapons
    }

    /** The tank of seat n. */
    function TankOf(n: int): Tank
      requires n == 1 || (n == 2 && player2.Some?)
      reads this`player1, this`player2
    {
      if n == 1 then player1 else player2.value
    }

    /** Score of the second seat, counting an empty seat as zero. */
    function Player2Score(): int
      reads this`player2
    {
      if player2.Some? then player2.value.score else 0
    }

    /**
     * A new match for its first player: generated terrain, the first tank
     * standing on it at 20% of the width, and a ten-weapon inventory drawn
     * for each seat.
     */
    constructor (shortCode: string, playerName: string, sessionId: string, m: MathLib, offsets: seq<real>,
                 draws1: WeaponDraws, draws2: WeaponDraws, now: int)
      requires |offsets| == 5 && Fair(draws1) && Fair(draws2)
      ensures Valid() && ShellsOk() && Grounded() && fresh(terrain) && fresh(terrain.heights)
      ensures this.shortCode == shortCode && createdAt == now
      ensures status == Waiting && player2.None? && !isAiGame && aiSessionId.None?
      ensures player1 == Tank(P1StartX, ArenaHeight - terrain.GetHeightAt(P1StartX), 100, 0,
                              playerName, sessionId, None, 45.0, 50.0)
      ensures forall x :: 0 <= x < Width ==> MinHeight <= terrain.heights[x] <= MaxHeight
      ensures |player1Weapons| == TurnsPerPlayer && multiset(player1Weapons)[Standard] == 1
      ensures |player2Weapons| == TurnsPerPlayer && multiset(player2Weapons)[Standard] == 1
      ensures currentTurn == 1 && turnNumber == 1 && projectiles == [] && selectedWeapon.None?
      ensures countdownTicks == 0 && startedAt.None? && phaseStartedAt.None?
    {
      var ground := NewTerrain(m, offsets);
      var weapons1 := Deal(TurnsPerPlayer, draws1);
      var weapons2 := Deal(TurnsPerPlayer, draws2);
      this.shortCode := shortCode;
      terrain := ground;
      status := Waiting;
      player1 := Tank(P1StartX, ArenaHeight - ground.GetHeightAt(P1StartX), 100, 0,
                      playerName, sessionId, None, 45.0, 50.0);
      player2 := None;
      isAiGame := false;
      aiSessionId := None;
      currentTurn := 1;
      turnNumber := 1;
      projectiles := [];
      player1Weapons := weapons1;
      player2Weapons := weapons2;
      selectedWeapon := None;
      countdownTicks := 0;
      createdAt := now;
      startedAt := None;
      phaseStartedAt := None;
    }

    /**
     * One seat's inventory: `count` weapons (at least one), exactly one of
     * them Standard.
     */
    static method Deal(count: int, draws: WeaponDraws) returns (weapons: seq<WeaponType>)
      requires Fair(draws)
      ensures |weapons| == Size(count) && multiset(weapons)[Standard] == 1
    {
      weapons := GetRandomWeapons(count, draws);
    }

    /** Fresh generated ground. */
    static method NewTerrain(m: MathLib, offsets: seq<real>) returns (ground: Terrain)
      requires |offsets| == 5
      ensures ground.Valid() && fresh(ground) && fresh(ground.heights)
      ensures forall x :: 0 <= x < Width ==> MinHeight <= ground.heights[x] <= MaxHeight
      ensures InBand(ground.heights[..])
    {
      ground := new Terrain();
      ground.Generate(m, offsets);
    }

    /** Seat of a session: 1, 2, or 0 for a stranger. */
    function GetPlayerNumber(sessionId: string): (n: int)
      reads this
      ensures n == 1 <==> player1.sessionId == sessionId
      ensures n == 2 <==> player1.sessionId != sessionId && player2.Some? && player2.value.sessionId == sessionId
      ensures n == 0 || n == 1 || n == 2
    {
      if player1.sessionId == sessionId then 1
      else if player2.Some? && player2.value.sessionId == sessionId then 2
      else 0
    }

    /** Seat holding a connection: 1, 2, or 0 when neither does. */
    function ConnectionOwner(connectionId: string): (n: int)
      reads this
      ensures n == 1 <==> player1.connectionId == Some(connectionId)
      ensures n == 2 <==> player1.connectionId != Some(connectionId) && player2.Some?
                          && player2.value.connectionId == Some(connectionId)
      ensures n == 0 || n == 1 || n == 2
    {
      if player1.connectionId == Some(connectionId) then 1
      else if player2.Some? && player2.value.connectionId == Some(connectionId) then 2
      else 0
    }

    /** The tank of a session, if it holds a seat: the tank of the seat GetPlayerNumber names. */
    function GetPlayerBySession(sessionId: string): (t: Option<Tank>)
      reads this
      ensures t.Some? <==> GetPlayerNumber(sessionId) != 0
      ensures t.Some? ==> t.value == TankOf(GetPlayerNumber(sessionId)) && t.value.sessionId == sessionId
    {
      if player1.sessionId == sessionId then Some(player1)
      else if player2.Some? && player2.value.sessionId == sessionId then player2
      else None
    }

    /** The tank holding a connection, if any: the tank of the seat ConnectionOwner names. */
    function GetPlayerByConnection(connectionId: string): (t: Option<Tank>)
      reads this
      ensures t.Some? <==> ConnectionOwner(connectionId) != 0
      ensures t.Some? ==> t.value == TankOf(ConnectionOwner(connectionId)) && t.value.connectionId == Some(connectionId)
    {
      if player1.connectionId == Some(connectionId) then Some(player1)
      else if player2.Some? && player2.value.connectionId == Some(connectionId) then player2
      else None
    }

    /**
     * Seats a second player at 80% of the width, facing left, and starts
     * the countdown; refused unless the match is waiting with the seat
     * free.
     */
    method AddPlayer2(playerName: string, sessionId: string, connectionId: string) returns (ok: bool)
      requires Valid()
      modifies this`player2, this`status, this`countdownTicks
      ensures Valid()
      ensures ok <==> old(status) == Waiting && old(player2).None?
      ensures !ok ==> unchanged(this)
      ensures ok ==> && player2 == Some(Tank(P2StartX, ArenaHeight - terrain.GetHeightAt(P2StartX), 100, 0,
                                              playerName, sessionId, Some(connectionId), 135.0, 50.0))
                     && status == Countdown && countdownTicks == CountdownDurationTicks
    {
      if status != Waiting || player2.Some? {
        return false;
      }
      player2 := Some(Tank(P2StartX, ArenaHeight - terrain.GetHeightAt(P2StartX), 100, 0,
                           playerName, sessionId, Some(connectionId), 135.0, 50.0));
      status := Countdown;
      countdownTicks := CountdownDurationTicks;
      return true;
    }

    /**
     * Seats the computer opponent ("CPU", session "ai_" + code, no
     * connection) and starts the countdown. Unlike AddPlayer2 it checks
     * nothing.
     */
    method AddAiPlayer2()
      requires Valid()
      modifies this`isAiGame, this`aiSessionId, this`player2, this`status, this`countdownTicks
      ensures Valid()
      ensures isAiGame && aiSessionId == Some("ai_" + shortCode)
      ensures player2 == Some(Tank(P2StartX, ArenaHeight - terrain.GetHeightAt(P2StartX), 100, 0,
                                   "CPU", "ai_" + shortCode, None, 135.0, 50.0))
      ensures status == Countdown && countdownTicks == CountdownDurationTicks
    {
      isAiGame := true;
      aiSessionId := Some("ai_" + shortCode);
      player2 := Some(Tank(P2StartX, ArenaHeight - terrain.GetHeightAt(P2StartX), 100, 0,
                           "CPU", "ai_" + shortCode, None, 135.0, 50.0));
      status := Countdown;
      countdownTicks := CountdownDurationTicks;
    }

    /**
     * One countdown tick; when the count runs out, player 1's first turn
     * begins in weapon selection. Outside the countdown nothing happens.
     */
    method TickCountdown(now: int)
      requires Valid()
      modifies this`countdownTicks, this`status, this`startedAt, this`phaseStartedAt, this`currentTurn, this`turnNumber
      ensures Valid()
      ensures old(status) != Countdown ==> unchanged(this)
      ensures old(status) == Countdown ==> countdownTicks == old(countdownTicks) - 1
      ensures old(status) == Countdown && countdownTicks > 0 ==>
                status == Countdown && unchanged(this`startedAt, this`phaseStartedAt, this`currentTurn, this`turnNumber)
      ensures old(status) == Countdown && countdownTicks <= 0 ==>
                && status == WeaponSelect && startedAt == Some(now) && phaseStartedAt == Some(now)
                && currentTurn == 1 && turnNumber == 1
    {
      if status != Countdown {
        return;
      }
      countdownTicks := countdownTicks - 1;
      if countdownTicks <= 0 {
        status := WeaponSelect;
        startedAt := Some(now);
        phaseStartedAt := Some(now);
        currentTurn := 1;
        turnNumber := 1;
      }
    }

    /**
     * What seat n may choose from: its inventory, plus, while aiming, the
     * weapon already in hand, which goes back to the end of the inventory
     * on a change of mind.
     */
    function Offered(n: int): seq<WeaponType>
      reads this`player1Weapons, this`player2Weapons, this`status, this`selectedWeapon
    {
      Inventory(n) + if status == Aiming && selectedWeapon.Some? then [selectedWeapon.value] else []
    }

    /**
     * The player whose turn it is, during weapon selection or aiming,
     * takes the first w on offer; the first choice moves the match from
     * weapon selection to aiming. Inventory plus hand is conserved
     * (ChoiceConserves). When no w is on offer the call fails, but a weapon
     * in hand during aiming has already been put back, and so is now both
     * in hand and in the inventory.
     */
    method SelectWeapon(sessionId: string, w: WeaponType, now: int) returns (ok: bool)
      requires Valid()
      modifies this`player1Weapons, this`player2Weapons, this`selectedWeapon, this`status, this`phaseStartedAt
      ensures Valid()
      ensures var n := old(GetPlayerNumber(sessionId));
              !((old(status) == WeaponSelect || old(status) == Aiming) && n == old(currentTurn)) ==>
                !ok && unchanged(this)
      ensures var n := old(GetPlayerNumber(sessionId));
              (old(status) == WeaponSelect || old(status) == Aiming) && n == old(currentTurn) ==>
                && (ok <==> w in old(Offered(n)))
                && Inventory(n) == (if ok then RemoveAt(old(Offered(n)), IndexOf(old(Offered(n)), w)) else old(Offered(n)))
                && Inventory(3 - n) == old(Inventory(3 - n))
      ensures ok ==> selectedWeapon == Some(w) && status == Aiming
      ensures !ok ==> selectedWeapon == old(selectedWeapon) && status == old(status)
      ensures ok && old(status) == WeaponSelect ==> phaseStartedAt == Some(now)
      ensures !(ok && old(status) == WeaponSelect) ==> phaseStartedAt == old(phaseStartedAt)
    {
      if status != WeaponSelect && status != Aiming {
        return false;
      }
      var n := GetPlayerNumber(sessionId);
      if n != currentTurn {
        return false;
      }
      ok := Choose(n, w, now);
    }

    /** SelectWeapon once the caller is known to hold the turn of seat n. */
    method Choose(n: int, w: WeaponType, now: int) returns (ok: bool)
      requires Valid() && n == currentTurn && (status == WeaponSelect || status == Aiming)
      modifies this`player1Weapons, this`player2Weapons, this`selectedWeapon, this`status, this`phaseStartedAt
      ensures Valid()
      ensures ok <==> w in old(Offered(n))
      ensures Inventory(n) == if ok then RemoveAt(old(Offered(n)), IndexOf(old(Offered(n)), w)) else old(Offered(n))
      ensures Inventory(3 - n) == old(Inventory(3 - n))
      ensures ok ==> selectedWeapon == Some(w) && status == Aiming
      ensures !ok ==> selectedWeapon == old(selectedWeapon) && status == old(status)
      ensures ok && old(status) == WeaponSelect ==> phaseStartedAt == Some(now)
      ensures !(ok && old(status) == WeaponSelect) ==> phaseStartedAt == old(phaseStartedAt)
    {
      ok := Take(n, w);
      if ok {
        Arm(w, now);
      }
    }

    /** The hand half of a choice: w is now in hand, and weapon selection gives way to aiming. */
    method Arm(w: WeaponType, now: int)
      requires Valid() && (status == WeaponSelect || status == Aiming)
      modifies this`selectedWeapon, this`status, this`phaseStartedAt
      ensures Valid()
      ensures selectedWeapon == Some(w) && status == Aiming
      ensures phaseStartedAt == if old(status) == WeaponSelect then Some(now) else old(phaseStartedAt)
    {
      selectedWeapon := Some(w);
      if status == WeaponSelect {
        status := Aiming;
        phaseStartedAt := Some(now);
      }
    }

    /**
     * The inventory half of a choice: seat n's inventory becomes what was
     * on offer, less the first w when there is one.
     */
    method Take(n: int, w: WeaponType) returns (ok: bool)
      requires n == 1 || n == 2
      modifies this`player1Weapons, this`player2Weapons
      ensures ok <==> w in old(Offered(n))
      ensures Inventory(n) == if ok then RemoveAt(old(Offered(n)), IndexOf(old(Offered(n)), w)) else old(Offered(n))
      ensures Inventory(3 - n) == old(Inventory(3 - n))
    {
      var weapons := Offered(n);
      var idx := IndexOf(weapons, w);
      if idx < 0 {
        SetInventory(n, weapons);
        return false;
      }
      SetInventory(n, RemoveAt(weapons, idx));
      return true;
    }

    /** Replaces the inventory of seat n (1 or 2). */
    method SetInventory(n: int, weapons: seq<WeaponType>)
      requires n == 1 || n == 2
      modifies this`player1Weapons, this`player2Weapons
      ensures Inventory(n) == weapons && Inventory(3 - n) == old(Inventory(3 - n))
    {
      if n == 1 {
        player1Weapons := weapons;
      } else {
        player2Weapons := weapons;
      }
    }

    /**
     * While aiming, the player whose turn it is sets the barrel angle,
     * clamped to [0, 180], and the power, clamped to [1, 100]; anyone else,
     * or any other phase, changes nothing.
     */
    method SetFiringParams(sessionId: string, angle: real, power: real)
      requires Valid()
      modifies this`player1, this`player2
      ensures Valid()
      ensures var n := old(GetPlayerNumber(sessionId));
              !(old(status) == Aiming && n == old(currentTurn)) ==> unchanged(this)
      ensures var n := old(GetPlayerNumber(sessionId));
              old(status) == Aiming && n == old(currentTurn) ==> Aimed(n, angle, power)
    {
      if status != Aiming {
        return;
      }
      var n := GetPlayerNumber(sessionId);
      if n != currentTurn {
        return;
      }
      Aim(n, angle, power);
    }

    /** Seat n's tank has taken the clamped angle and power, and nothing else about either tank changed. */
    twostate predicate Aimed(n: int, angle: real, power: real)
      reads this
    {
      && (n == 1 || n == 2) && old(player2).Some? == player2.Some?
      && (n == 1 ==> player1 == old(player1).(angle := Clamp(angle, 0.0, 180.0), power := Clamp(power, 1.0, MaxPower))
                     && player2 == old(player2))
      && (n == 2 && player2.Some? ==>
            player2.value == old(player2).value.(angle := Clamp(angle, 0.0, 180.0), power := Clamp(power, 1.0, MaxPower))
            && player1 == old(player1))
    }

    /** Sets the clamped angle and power of seat n's tank. */
    method Aim(n: int, angle: real, power: real)
      requires Valid() && (n == 1 || (n == 2 && player2.Some?))
      modifies this`player1, this`player2
      ensures Valid() && Aimed(n, angle, power)
    {
      var t := TankOf(n).(angle := Clamp(angle, 0.0, 180.0), power := Clamp(power, 1.0, MaxPower));
      if n == 1 {
        player1 := t;
      } else {
        player2 := Some(t);
      }
    }

    /** Nothing about the match but its two tanks has changed. */
    twostate predicate SameProgress()
      reads this
    {
      && status == old(status) && isAiGame == old(isAiGame) && aiSessionId == old(aiSessionId)
      && currentTurn == old(currentTurn) && turnNumber == old(turnNumber) && projectiles == old(projectiles)
      && player1Weapons == old(player1Weapons) && player2Weapons == old(player2Weapons)
      && selectedWeapon == old(selectedWeapon) && countdownTicks == old(countdownTicks)
      && startedAt == old(startedAt) && phaseStartedAt == old(phaseStartedAt)
    }

    /** Binds (or with None, clears) the connection of seat n's tank. */
    method Bind(n: int, connectionId: Option<string>)
      requires Valid() && (n == 1 || (n == 2 && player2.Some?))
      modifies this`player1, this`player2
      ensures Valid()
      ensures player1 == if n == 1 then old(player1).(connectionId := connectionId) else old(player1)
      ensures player2 == if n == 2 then Some(old(player2).value.(connectionId := connectionId)) else old(player2)
    {
      if n == 1 {
        player1 := player1.(connectionId := connectionId);
      } else {
        player2 := Some(player2.value.(connectionId := connectionId));
      }
    }

    /**
     * The player whose turn it is, while aiming, sets the clamped angle and
     * power and fires the weapon in hand; anyone else, or any other phase,
     * is refused and changes nothing.
     */
    method Fire(sessionId: string, angle: real, power: real, m: MathLib) returns (ok: bool)
      requires Valid() && ShellsOk()
      modifies this`player1, this`player2, this`projectiles, this`status
      ensures Valid() && ShellsOk()
      ensures var n := old(GetPlayerNumber(sessionId));
              !(old(status) == Aiming && n == old(currentTurn)) ==> !ok && unchanged(this)
      ensures var n := old(GetPlayerNumber(sessionId));
              old(status) == Aiming && n == old(currentTurn) ==>
                && ok && Aimed(n, angle, power) && status == Firing
                && Volley(old(projectiles), projectiles, TankOf(n), Get(selectedWeapon.value), n, m)
    {
      if status != Aiming {
        return false;
      }
      var n := GetPlayerNumber(sessionId);
      if n != currentTurn {
        return false;
      }
      Aim(n, angle, power);
      ok := LaunchProjectiles(n, m);
    }

    /**
     * Fires for a player who ran out of time. During weapon selection the
     * first weapon of the inventory is taken (Standard when the inventory is
     * empty) and the match moves to aiming, without restarting the phase
     * clock; then the weapon in hand is fired at the tank's current aim.
     * Outside those two phases nothing happens.
     */
    method AutoFire(m: MathLib) returns (ok: bool)
      requires Valid() && ShellsOk()
      modifies this`player1Weapons, this`player2Weapons, this`selectedWeapon, this`status, this`projectiles
      ensures Valid() && ShellsOk()
      ensures !(old(status) == WeaponSelect || old(status) == Aiming) ==> !ok && unchanged(this)
      ensures old(status) == WeaponSelect ==>
                var before := old(Inventory(currentTurn));
                && (|before| > 0 ==> selectedWeapon == Some(before[0]) && Inventory(currentTurn) == before[1..])
                && (|before| == 0 ==> selectedWeapon == Some(Standard) && Inventory(currentTurn) == before)
      ensures old(status) == Aiming ==> selectedWeapon == old(selectedWeapon) && Inventory(currentTurn) == old(Inventory(currentTurn))
      ensures Inventory(3 - currentTurn) == old(Inventory(3 - currentTurn))
      ensures old(status) == WeaponSelect || old(status) == Aiming ==>
                && ok && status == Firing
                && Volley(old(projectiles), projectiles, TankOf(currentTurn), Get(selectedWeapon.value), currentTurn, m)
    {
      if status != Aiming && status != WeaponSelect {
        return false;
      }
      if status == WeaponSelect {
        var weapons := Inventory(currentTurn);
        if |weapons| > 0 {
          selectedWeapon := Some(weapons[0]);
          SetInventory(currentTurn, weapons[1..]);
        } else {
          selectedWeapon := Some(Standard);
        }
        status := Aiming;
      }
      ok := LaunchProjectiles(currentTurn, m);
    }

    /**
     * Launches the weapon in hand from seat n's barrel tip: one shell, or
     * for a spread weapon one shell per projectile fanned around the aim,
     * and the match enters the firing phase. With no weapon in hand
     * nothing happens.
     */
    method LaunchProjectiles(n: int, m: MathLib) returns (ok: bool)
      requires Valid() && ShellsOk() && status == Aiming && (n == 1 || (n == 2 && player2.Some?))
      modifies this`projectiles, this`status
      ensures Valid() && ShellsOk()
      ensures ok && status == Firing
      ensures Volley(old(projectiles), projectiles, TankOf(n), Get(selectedWeapon.value), n, m)
    {
      // While aiming a weapon is always in hand (Valid), so the source's
      // empty-hand refusal cannot fire here.
      var kind := selectedWeapon.value;
      var t := TankOf(n);
      if Get(kind).projectileCount > 1 {
        FireFan(t, kind, n, m);
      } else {
        FireOne(t, kind, n, m);
      }
      status := Firing;
      return true;
    }

    /** Appends one shell per projectile of a spread weapon, fanned around the aim. */
    method FireFan(t: Tank, kind: WeaponType, n: int, m: MathLib)
      requires ShellsOk() && (n == 1 || n == 2)
      modifies this`projectiles
      ensures ShellsOk()
      ensures Volley(old(projectiles), projectiles, t, Get(kind), n, m)
    {
      var w := Get(kind);
      var tipX := TipX(t, m);
      var tipY := TipY(t, m);
      ghost var before := projectiles;
      ghost var fan: seq<Projectile> := [];
      var i := 0;
      while i < w.projectileCount
        invariant 0 <= i <= w.projectileCount
        invariant projectiles == before + fan && |fan| == i
        invariant forall k :: 0 <= k < |fan| ==> Launched(fan[k], t, w, k, n, m)
        invariant ShellsOk()
      {
        var p := new Projectile(tipX, tipY, LaunchVelocityX(t, w, i, m), LaunchVelocityY(t, w, i, m), kind, n);
        Append(p);
        fan := fan + [p];
        i := i + 1;
      }
      assert projectiles[|before|..] == fan;
    }

    /** Appends the single shell of a one-projectile weapon, launched along the aim. */
    method FireOne(t: Tank, kind: WeaponType, n: int, m: MathLib)
      requires ShellsOk() && (n == 1 || n == 2) && Get(kind).projectileCount == 1
      modifies this`projectiles
      ensures ShellsOk()
      ensures Volley(old(projectiles), projectiles, t, Get(kind), n, m)
    {
      var w := Get(kind);
      var p := new Projectile(TipX(t, m), TipY(t, m), LaunchVelocityX(t, w, 0, m), LaunchVelocityY(t, w, 0, m), kind, n);
      Append(p);
      assert projectiles[|old(projectiles)|..] == [p];
    }

    /** Adds a new shell to the flight list. */
    method Append(p: Projectile)
      requires ShellsOk() && ShellOk(p) && p !in projectiles
      modifies this`projectiles
      ensures ShellsOk() && projectiles == old(projectiles) + [p]
    {
      projectiles := projectiles + [p];
    }

    /** The match is decided: twenty turns are done, or a tank is out of health. */
    predicate MatchOver()
      reads this
      ensures turnNumber > 2 * TurnsPerPlayer ==> MatchOver()
      ensures player2.None? ==> (MatchOver() <==> turnNumber > 2 * TurnsPerPlayer || player1.health <= 0)
      ensures turnNumber <= 2 * TurnsPerPlayer && player1.health > 0 && (player2.None? || player2.value.health > 0) ==> !MatchOver()
    {
      turnNumber > 2 * TurnsPerPlayer || player1.health <= 0 || (player2.Some? && player2.value.health <= 0)
    }

    /**
     * Ends a turn: the turn count goes up; a decided match is over;
     * otherwise the other seat starts weapon selection with an empty hand.
     */
    method AdvanceTurn(now: int)
      requires Valid() && status == Firing
      modifies this`turnNumber, this`status, this`currentTurn, this`selectedWeapon, this`phaseStartedAt
      ensures Valid()
      ensures turnNumber == old(turnNumber) + 1
      ensures MatchOver() ==> status == GameOver && unchanged(this`currentTurn, this`selectedWeapon, this`phaseStartedAt)
      ensures !MatchOver() ==>
                && status == WeaponSelect && currentTurn == 3 - old(currentTurn)
                && selectedWeapon.None? && phaseStartedAt == Some(now)
    {
      turnNumber := turnNumber + 1;
      if turnNumber > 2 * TurnsPerPlayer || player1.health <= 0 || (player2.Some? && player2.value.health <= 0) {
        status := GameOver;
        return;
      }
      currentTurn := if currentTurn == 1 then 2 else 1;
      selectedWeapon := None;
      status := WeaponSelect;
      phaseStartedAt := Some(now);
    }

    /** The winner of a finished match: the strictly higher score; a tie, or an unfinished match, has none. */
    function GetWinnerName(): (r: Option<string>)
      requires Valid()
      reads this
      ensures status != GameOver ==> r.None?
      ensures status == GameOver && player1.score > Player2Score() ==> r == Some(player1.name)
      ensures status == GameOver && Player2Score() > player1.score ==> player2.Some? && r == Some(player2.value.name)
      ensures player1.score == Player2Score() ==> r.None?
    {
      if status != GameOver then None
      else if player1.score > Player2Score() then Some(player1.name)
      else if Player2Score() > player1.score then Some(player2.value.name)
      else None
    }

    /** Seconds since the current phase started. */
    function Elapsed(now: int): (r: real)
      requires phaseStartedAt.Some?
      reads this
      ensures r >= 0.0 <==> now >= phaseStartedAt.value
      ensures now >= phaseStartedAt.value + 1000 ==> r >= 1.0
    {
      (now - phaseStartedAt.value) as real / 1000.0
    }

    /** Length of the current phase in seconds: only weapon selection and aiming are timed. */
    function PhaseLimit(): (r: real)
      reads this
      ensures r >= 0.0
      ensures r > 0.0 <==> status == WeaponSelect || status == Aiming
    {
      if status == WeaponSelect then WeaponSelectTimeSec
      else if status == Aiming then AimingTimeSec
      else 0.0
    }

    /** Weapon selection or aiming has run for its full length. */
    predicate IsPhaseTimedOut(now: int)
      reads this
    {
      phaseStartedAt.Some? && (status == WeaponSelect || status == Aiming) && Elapsed(now) >= PhaseLimit()
    }

    /** Seconds left in the current phase, never negative; zero for untimed phases. */
    function GetPhaseTimeRemaining(now: int): (r: real)
      reads this
      ensures 0.0 <= r
      ensures phaseStartedAt.Some? && now >= phaseStartedAt.value ==> r <= PhaseLimit()
    {
      if phaseStartedAt.None? then 0.0 else Max(0.0, PhaseLimit() - Elapsed(now))
    }

    /** The two clock readings agree: a timed phase has timed out exactly when no time remains. */
    lemma TimeoutMeansNoTimeLeft(now: int)
      requires phaseStartedAt.Some? && (status == WeaponSelect || status == Aiming)
      ensures IsPhaseTimedOut(now) <==> GetPhaseTimeRemaining(now) == 0.0
    {
    }

    /**
     * Applies the damage of one explosion: each tank loses its damage
     * (half of it for the shooter's own tank) and the shooter scores the
     * damage done to the opponent.
     */
    method Wound(owner: int, d1: real, d2: real)
      requires Valid() && (owner == 1 || owner == 2) && (owner == 2 ==> player2.Some?)
      requires d1 >= 0.0 && d2 >= 0.0 && (player2.None? ==> d2 == 0.0)
      modifies this`player1, this`player2
      ensures Valid()
      ensures player1 == AfterBlast(old(player1), d1, owner == 1, if owner == 1 then d2 else 0.0)
      ensures player2.Some? == old(player2).Some?
      ensures player2.Some? ==> player2.value == AfterBlast(old(player2).value, d2, owner == 2, if owner == 2 then d1 else 0.0)
    {
      assert Round(0.0) == 0;
      if owner == 1 && d2 > 0.0 {
        player2 := Some(player2.value.(health := MaxInt(0, player2.value.health - Round(d2))));
        player1 := player1.(score := player1.score + Round(d2));
      } else if owner == 2 && d1 > 0.0 {
        player1 := player1.(health := MaxInt(0, player1.health - Round(d1)));
        player2 := Some(player2.value.(score := player2.value.score + Round(d1)));
      }
      if owner == 1 && d1 > 0.0 {
        player1 := player1.(health := MaxInt(0, player1.health - Round(d1 * 0.5)));
      } else if owner == 2 && d2 > 0.0 {
        player2 := Some(player2.value.(health := MaxInt(0, player2.value.health - Round(d2 * 0.5))));
      }
    }

    /** Stands both tanks back on the ground under them. */
    method Settle()
      requires Valid()
      modifies this`player1, this`player2
      ensures Valid()
      ensures player1 == old(player1).(y := ArenaHeight - terrain.GetHeightAt(old(player1).x))
      ensures player2.Some? == old(player2).Some?
      ensures player2.Some? ==> player2.value == old(player2).value.(y := ArenaHeight - terrain.GetHeightAt(old(player2).value.x))
    {
      player1 := player1.(y := ArenaHeight - terrain.GetHeightAt(player1.x));
      if player2.Some? {
        player2 := Some(player2.value.(y := ArenaHeight - terrain.GetHeightAt(player2.value.x)));
      }
    }

    /**
     * The effect of an explosion of weapon `kind` fired by seat `owner` at
     * (x, y): the crater is dug, each tank is wounded (AfterBlast) and
     * stood back on the new ground, and the event reports the blast, whom
     * it is counted against, and the standings after it.
     */
    twostate predicate Blasted(x: real, y: real, kind: WeaponType, owner: int, m: MathLib, e: ExplosionEvent)
      reads this`player1, this`player2, terrain.heights
    {
      && terrain.Valid()
      && terrain.heights[..] == Deformed(old(terrain.heights[..]), x, Get(kind).blastRadius, m.sqrt)
      && (var d1 := CalculateDamage(x, y, old(player1), kind, m);
          var d2 := if old(player2).Some? then CalculateDamage(x, y, old(player2).value, kind, m) else 0.0;
         && player1 == AfterBlast(old(player1), d1, owner == 1, if owner == 1 then d2 else 0.0)
                         .(y := ArenaHeight - terrain.GetHeightAt(old(player1).x))
         && player2.Some? == old(player2).Some?
         && (player2.Some? ==>
               player2.value == AfterBlast(old(player2).value, d2, owner == 2, if owner == 2 then d1 else 0.0)
                                  .(y := ArenaHeight - terrain.GetHeightAt(old(player2).value.x)))
         && e.targetPlayer == Target(owner, d1, d2)
         && e.damage == (if e.targetPlayer == 2 then d2 else if e.targetPlayer == 1 then d1 else 0.0))
      && e.x == x && e.y == y && e.radius == Get(kind).blastRadius && e.weaponType == kind
      && e.p1Health == player1.health && e.p1Score == player1.score && e.p2Score == Player2Score()
      && e.p2Health == (if player2.Some? then player2.value.health else 0)
    }

    /**
     * An explosion of weapon `kind` fired by seat `owner` at (x, y), as
     * Blasted describes it. The ground stays between the floor and the top
     * of the band, and no tank gains health or loses score.
     */
    method ApplyExplosion(x: real, y: real, kind: WeaponType, owner: int, m: MathLib) returns (e: ExplosionEvent)
      requires Valid() && Grounded() && Sound(m) && (owner == 1 || owner == 2) && (owner == 2 ==> player2.Some?)
      modifies this`player1, this`player2, terrain.heights
      ensures Valid() && Grounded()
      ensures Blasted(x, y, kind, owner, m, e) && NoGain()
    {
      var w := Get(kind);
      ghost var ground := terrain.heights[..];
      terrain.Deform(x, w.blastRadius, m);
      DeformKeepsBand(ground, x, w.blastRadius, m);
      var d1 := CalculateDamage(x, y, player1, kind, m);
      var d2 := if player2.Some? then CalculateDamage(x, y, player2.value, kind, m) else 0.0;
      var target := Target(owner, d1, d2);
      var damage := 0.0;
      var directHit := false;
      if target == 2 {
        damage := d2;
        directHit := DistanceToTank(x, y, player2.value, m) < TankWidth / 2.0;
      } else if target == 1 {
        damage := d1;
        directHit := DistanceToTank(x, y, player1, m) < TankWidth / 2.0;
      }
      Wound(owner, d1, d2);
      Settle();
      e := ExplosionEvent(x, y, w.blastRadius, kind, target, damage, directHit,
                          player1.health, if player2.Some? then player2.value.health else 0,
                          player1.score, Player2Score());
    }

    /** No tank gained health or lost score. */
    twostate predicate NoGain()
      reads this`player1, this`player2
    {
      && player1.health <= old(player1.health) && player1.score >= old(player1.score)
      && (old(player2).Some? && player2.Some? ==>
            player2.value.health <= old(player2).value.health && player2.value.score >= old(player2).value.score)
    }

    /**
     * Shell i becomes v and, when `blow` holds, explodes where v is, as
     * Blasted describes; without an explosion the ground and the tanks are
     * left alone.
     */
    method Commit(i: int, v: ShellView, blow: bool, m: MathLib) returns (burst: Option<ExplosionEvent>)
      requires Valid() && ShellsOk() && Grounded() && Sound(m) && status == Firing && 0 <= i < |projectiles| && ViewOk(v)
      modifies this`player1, this`player2, terrain.heights, projectiles[i]
      ensures Valid() && ShellsOk() && Grounded() && NoGain()
      ensures projectiles[i].View() == v
      ensures burst.Some? <==> blow
      ensures burst.Some? ==> Blasted(v.x, v.y, v.weaponType, v.ownerPlayer, m, burst.value)
      ensures burst.None? ==>
                unchanged(terrain.heights) && player1 == old(player1) && player2 == old(player2)
    {
      burst := None;
      if blow {
        var e := ApplyExplosion(v.x, v.y, v.weaponType, v.ownerPlayer, m);
        burst := Some(e);
      }
      projectiles[i].Set(v);
    }

    /**
     * The checks of one tick for shell i, which has just moved (Tick). The
     * branch taken is the one Route picks from where the shell is, the
     * ground under it and the tanks; the shell becomes what Moved says;
     * the shell explodes, as Blasted describes, exactly on the ground away
     * from the edge of bounces and rolls, on a tank, or when a roller has
     * stopped; and only an explosion changes the ground and the tanks.
     */
    method Resolve(i: int, m: MathLib) returns (f: Fate)
      requires Valid() && ShellsOk() && Grounded() && Sound(m) && status == Firing && 0 <= i < |projectiles|
      modifies this`player1, this`player2, terrain.heights, projectiles[i]
      ensures Valid() && ShellsOk() && Grounded() && NoGain()
      ensures Resolved(old(projectiles[i].View()), projectiles[i].View(), f, old(SceneAt(projectiles[i].View())))
      ensures var v' := projectiles[i].View();
              Burst(f).Some? ==> Blasted(v'.x, v'.y, v'.weaponType, v'.ownerPlayer, m, Burst(f).value)
      ensures Burst(f).None? ==>
                unchanged(terrain.heights) && player1 == old(player1) && player2 == old(player2)
    {
      var p := projectiles[i];
      var v := p.View();
      var groundY := ArenaHeight - terrain.GetHeightAt(v.x);
      ghost var sc := Scene(groundY, player1, player2.value);
      var path := Route(v.x, v.y, groundY, v.weaponType, v.bounceCount, v.isRolling, v.ticksAlive, player1, player2.value);
      var after := Moved(v, groundY, player1, player2.value);
      var burst := Commit(i, after, path == Crater || path == TankHit || (path == Roll && !after.active), m);
      f := FateOf(path, Spot(after.x, after.y), burst);
      assert PathOf(f) == path && projectiles[i].View() == after;
      assert Resolved(v, after, f, sc);
    }

    /** The scene a shell at v meets: the ground level under it and the two tanks. */
    ghost function SceneAt(v: ShellView): Scene
      requires terrain.Valid() && player2.Some?
      reads this`player1, this`player2, terrain.heights
    {
      Scene(ArenaHeight - terrain.GetHeightAt(v.x), player1, player2.value)
    }

    /** The scene a shell now at v would meet after its next move. */
    ghost function SceneFor(v: ShellView): Scene
      requires terrain.Valid() && player2.Some?
      reads this`player1, this`player2, terrain.heights
    {
      SceneAt(Ticked(v, Gravity))
    }

    /** The ground and the tanks as they are now. */
    ghost function WorldNow(): World
      requires player2.Some?
      reads this`player1, this`player2, terrain.heights
    {
      World(terrain.heights[..], player1, player2.value)
    }

    /** The scene a shell meets on the map is the one it meets in the world it is in. */
    lemma SceneForIsSceneIn(v: ShellView)
      requires terrain.Valid() && player2.Some?
      ensures |WorldNow().heights| == Width && SceneFor(v) == SceneIn(WorldNow(), v)
    {
      terrain.HeightOfMatches(Ticked(v, Gravity).x);
    }

    /**
     * One live shell's share of a tick: it moves (Tick), then goes through
     * the checks (Resolve) in the scene it finds, which is the ground and
     * the tanks as they were when the step began.
     */
    method Step(i: int, m: MathLib) returns (f: Fate, ghost sc: Scene)
      requires Valid() && ShellsOk() && Grounded() && Sound(m) && status == Firing && 0 <= i < |projectiles|
      requires projectiles[i].active
      modifies this`player1, this`player2, terrain.heights, projectiles[i]
      ensures Valid() && ShellsOk() && Grounded() && NoGain()
      ensures sc == old(SceneFor(projectiles[i].View()))
      ensures SteppedBy(old(projectiles[i].View()), projectiles[i].View(), f, sc)
      ensures sc == SceneIn(old(WorldNow()), old(projectiles[i].View()))
      ensures Moves(old(WorldNow()), WorldNow(), old(projectiles[i].View()).ownerPlayer, Some(f), m)
      ensures var v' := projectiles[i].View();
              Burst(f).Some? ==> Blasted(v'.x, v'.y, v'.weaponType, v'.ownerPlayer, m, Burst(f).value)
      ensures Burst(f).None? ==>
                unchanged(terrain.heights) && player1 == old(player1) && player2 == old(player2)
    {
      ghost var v0 := projectiles[i].View();
      ghost var w := WorldNow();
      SceneForIsSceneIn(v0);
      sc := SceneFor(v0);
      Age(i);
      assert SceneAt(projectiles[i].View()) == sc;
      f := Resolve(i, m);
      terrain.HeightOfMatches(w.t1.x);
      terrain.HeightOfMatches(w.t2.x);
    }

    /** Live shell i moves one tick: it becomes Ticked of what it was. */
    method Age(i: int)
      requires ShellsOk() && 0 <= i < |projectiles| && projectiles[i].active
      modifies projectiles[i]
      ensures ShellsOk()
      ensures projectiles[i].View() == Ticked(old(projectiles[i].View()), Gravity)
    {
      projectiles[i].Tick(Gravity);
    }

    /** What every shell of the list is, in list order. */
    ghost function Views(): (vs: seq<ShellView>)
      reads this`projectiles, set p | p in projectiles
    {
      ViewsOf(projectiles)
    }

    /** Some shell is still live. */
    predicate SomeLive()
      reads this`projectiles, set p | p in projectiles
    {
      exists k :: 0 <= k < |projectiles| && projectiles[k].active
    }

    /**
     * Steps every shell that is live, in list order, and collects what they
     * report. Each live shell k is stepped once (SteppedBy, with fate
     * fates[k] in scene scenes[k]); spent shells are left alone. Shell k
     * meets world k (the ground and the tanks) and takes it to world k + 1,
     * which differs only after an explosion, as BlastOf says (Chained); the
     * tick starts in the first world and ends in the last, so with no
     * explosion nothing changes. The result is Collect of the fates; every
     * reported position is that of a live shell, at its index, in
     * increasing order of index.
     */
    method StepAll(m: MathLib)
        returns (r: TickResult, ghost fates: seq<Option<Fate>>, ghost scenes: seq<Scene>, ghost after: seq<ShellView>,
                 ghost worlds: seq<World>)
      requires Valid() && ShellsOk() && Grounded() && Sound(m) && status == Firing
      modifies this`player1, this`player2, terrain.heights, set p | p in projectiles
      ensures Valid() && ShellsOk() && Grounded() && NoGain()
      ensures |fates| == |projectiles| && after == Views()
      ensures Walked(old(Views()), after, fates, scenes, Collect(fates))
      ensures Chained(old(Views()), worlds, fates, scenes, m)
      ensures worlds[0] == old(WorldNow()) && WorldNow() == worlds[|worlds| - 1]
      ensures r == Collect(fates)
      ensures !SomeLive() <==> forall k :: 0 <= k < |after| ==> !after[k].active
      ensures r.projectiles != [] ==> SomeLive()
      ensures Calm(fates, |fates|) ==> WorldNow() == old(WorldNow())
    {
      r, fates, scenes, worlds := Walk(m);
      after := Views();
      LiveInViews();
      ReportedAreLive(r.projectiles);
      if Calm(fates, |fates|) {
        CalmWorld(old(Views()), worlds, fates, scenes, m, |fates|);
      }
    }

    /** The loop of StepAll: shells 0, 1, ... are stepped in turn (WalkStep). */
    method Walk(m: MathLib)
        returns (r: TickResult, ghost fates: seq<Option<Fate>>, ghost scenes: seq<Scene>, ghost worlds: seq<World>)
      requires Valid() && ShellsOk() && Grounded() && Sound(m) && status == Firing
      modifies this`player1, this`player2, terrain.heights, set p | p in projectiles
      ensures Valid() && ShellsOk() && Grounded() && NoGain()
      ensures |fates| == |projectiles|
      ensures Walked(old(Views()), Views(), fates, scenes, r)
      ensures Chained(old(Views()), worlds, fates, scenes, m)
      ensures worlds[0] == old(WorldNow()) && WorldNow() == worlds[|worlds| - 1]
    {
      ghost var start := Views();
      r, fates, scenes, worlds := EmptyTick, [], [], [WorldNow()];
      var i := 0;
      while i < |projectiles|
        invariant 0 <= i <= |projectiles| && i == |fates| && |start| == |projectiles|
        invariant Valid() && ShellsOk() && Grounded() && NoGain()
        invariant Walked(start, Views(), fates, scenes, r)
        invariant Chained(start, worlds, fates, scenes, m)
        invariant worlds[0] == old(WorldNow()) && WorldNow() == worlds[|worlds| - 1]
      {
        r, fates, scenes, worlds := WalkStep(i, m, r, start, fates, scenes, worlds);
        i := i + 1;
      }
    }

    /**
     * One turn of Walk's loop: shell i is stepped (StepInto) and the walk
     * moves on to i + 1 (WalkOn); the shell meets the world as the turn
     * began and takes it to the world as the turn ends (ChainOn).
     */
    method WalkStep(i: int, m: MathLib, r: TickResult, ghost start: seq<ShellView>,
                    ghost fates: seq<Option<Fate>>, ghost scenes: seq<Scene>, ghost worlds: seq<World>)
        returns (r': TickResult, ghost fates': seq<Option<Fate>>, ghost scenes': seq<Scene>, ghost worlds': seq<World>)
      requires Valid() && ShellsOk() && Grounded() && Sound(m) && status == Firing
      requires 0 <= i < |projectiles| && i == |fates| && |start| == |projectiles|
      requires Walked(start, Views(), fates, scenes, r)
      requires Chained(start, worlds, fates, scenes, m) && worlds[|worlds| - 1] == WorldNow()
      modifies this`player1, this`player2, terrain.heights, projectiles[i]
      ensures Valid() && ShellsOk() && Grounded() && NoGain()
      ensures |fates'| == i + 1
      ensures Walked(start, Views(), fates', scenes', r')
      ensures Chained(start, worlds', fates', scenes', m) && worlds' == worlds + [WorldNow()]
    {
      ghost var vs := Views();
      ghost var f, sc;
      r', f, sc := StepInto(i, m, r);
      WalkOn(start, vs, Views(), fates, scenes, r, f, sc);
      ChainOn(start, worlds, fates, scenes, m, f, sc, WorldNow());
      fates', scenes', worlds' := fates + [f], scenes + [sc], worlds + [WorldNow()];
    }

    /**
     * Steps shell i if it is live and adds what it reports to r: f is its
     * fate (None for a spent shell, which is left alone) and sc the scene
     * it met. No other shell changes.
     */
    method StepInto(i: int, m: MathLib, r: TickResult) returns (r': TickResult, ghost f: Option<Fate>, ghost sc: Scene)
      requires Valid() && ShellsOk() && Grounded() && Sound(m) && status == Firing && 0 <= i < |projectiles|
      modifies this`player1, this`player2, terrain.heights, projectiles[i]
      ensures Valid() && ShellsOk() && Grounded() && NoGain()
      ensures forall k :: 0 <= k < |projectiles| && k != i ==> Views()[k] == old(Views())[k]
      ensures f.Some? <==> old(Views())[i].active
      ensures r' == if f.Some? then Report(r, f.value, i) else r
      ensures f.None? ==> Views()[i] == old(Views())[i]
      ensures f.Some? ==> sc == old(SceneFor(Views()[i])) && SteppedBy(old(Views())[i], Views()[i], f.value, sc)
      ensures f.Some? ==> sc == SceneIn(old(WorldNow()), old(Views())[i])
      ensures Moves(old(WorldNow()), WorldNow(), old(Views())[i].ownerPlayer, f, m)
      ensures f.None? || Burst(f.value).None? ==>
                unchanged(terrain.heights) && player1 == old(player1) && player2 == old(player2)
    {
      r', f, sc := r, None, Scene(0.0, player1, player2.value);
      if projectiles[i].active {
        var fate;
        fate, sc := Step(i, m);
        f := Some(fate);
        r' := Report(r, fate, i);
      }
      forall k | 0 <= k < |projectiles| && k != i
        ensures Views()[k] == old(Views())[k]
      {
        assert projectiles[k] != projectiles[i];
      }
    }

    /**
     * One physics tick. Outside the firing phase nothing happens and
     * nothing is reported. While firing, every live shell is stepped once,
     * in list order (StepAll: fate fates[k] in scene scenes[k]), with spent
     * shells left alone; shell k meets the ground and tanks the shells
     * before it left (Chained worlds), and the tick ends in the last world.
     * The result is what the fates report; if no
     * shell is live afterwards the shot is complete: the list is cleared
     * and the turn advances (AdvanceTurn). Positions are reported only for
     * live shells, so a complete tick reports none.
     */
    method PhysicsTick(m: MathLib, now: int)
        returns (r: TickResult, ghost fates: seq<Option<Fate>>, ghost scenes: seq<Scene>, ghost after: seq<ShellView>,
                 ghost worlds: seq<World>)
      requires Valid() && ShellsOk() && Grounded() && Sound(m)
      modifies this`player1, this`player2, terrain.heights, set p | p in projectiles
      modifies this`projectiles, this`turnNumber, this`status, this`currentTurn, this`selectedWeapon, this`phaseStartedAt
      ensures Valid() && ShellsOk() && Grounded() && NoGain()
      ensures old(status) != Firing ==> r == EmptyTick && unchanged(this) && unchanged(terrain.heights)
      ensures old(status) == Firing ==>
                && |fates| == |old(projectiles)|
                && Walked(old(Views()), after, fates, scenes, Collect(fates))
                && Chained(old(Views()), worlds, fates, scenes, m)
                && player2.Some? && worlds[0] == old(WorldNow()) && WorldNow() == worlds[|worlds| - 1]
                && r == Collect(fates).(firingComplete := r.firingComplete)
                && (r.firingComplete <==> forall k :: 0 <= k < |after| ==> !after[k].active)
      ensures old(status) == Firing && !r.firingComplete ==>
                && projectiles == old(projectiles) && Views() == after && status == Firing && turnNumber == old(turnNumber)
      ensures r.firingComplete ==>
                && old(status) == Firing && projectiles == [] && r.projectiles == []
                && turnNumber == old(turnNumber) + 1
                && (MatchOver() ==> status == GameOver)
                && (!MatchOver() ==> status == WeaponSelect && currentTurn == 3 - old(currentTurn) && phaseStartedAt == Some(now))
    {
      fates, scenes, after, worlds := [], [], [], [];
      if status != Firing {
        return EmptyTick, fates, scenes, after, worlds;
      }
      r, fates, scenes, after, worlds := StepAll(m);
      if !SomeLive() {
        r := Finish(r, now);
      }
    }

    /**
     * The shot is over, as no shell is live: the tick result r (which can
     * then hold no position) is marked complete, the flight list is cleared
     * and the turn ends (AdvanceTurn).
     */
    method Finish(r: TickResult, now: int) returns (r': TickResult)
      requires Valid() && status == Firing && !SomeLive() && (r.projectiles != [] ==> SomeLive())
      modifies this`projectiles, this`turnNumber, this`status, this`currentTurn, this`selectedWeapon, this`phaseStartedAt
      ensures r' == r.(firingComplete := true) && r'.projectiles == []
      ensures player1 == old(player1) && player2 == old(player2)
      ensures Valid() && projectiles == [] && turnNumber == old(turnNumber) + 1
      ensures MatchOver() ==> status == GameOver
      ensures !MatchOver() ==> status == WeaponSelect && currentTurn == 3 - old(currentTurn) && phaseStartedAt == Some(now)
    {
      r' := r.(firingComplete := true);
      projectiles := [];
      AdvanceTurn(now);
    }

    /** Some shell is live exactly when some view of the list is. */
    lemma LiveInViews()
      ensures !SomeLive() <==> forall k :: 0 <= k < |Views()| ==> !Views()[k].active
    {
      var vs := Views();
      if SomeLive() {
        var k :| 0 <= k < |projectiles| && projectiles[k].active;
        assert vs[k].active;
      }
    }

    /** A reported position is a live shell, so a report with positions means some shell is live. */
    lemma ReportedAreLive(positions: seq<ProjectilePosition>)
      requires Reported(Views(), positions)
      ensures positions != [] ==> SomeLive()
    {
      if positions != [] {
        var q := positions[0];
        assert 0 <= q.index < |projectiles| && Views()[q.index].active;
      }
    }
  }
}
