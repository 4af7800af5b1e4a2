/**
 * One artillery shell in flight. A tick either lets it fall under gravity
 * or, once it has landed as a roller, slides it along with friction until
 * it is too slow and detonates.
 */
module Projectiles {
  import opened Numerics
  import opened Weapons

  /** Velocity kept per tick while rolling. */
  const Friction: real := 0.97
  /** Below this horizontal speed a roller stops and detonates. */
  const StopSpeed: real := 0.3

  /** Everything a shell holds, as one value. */
  datatype ShellView = ShellView(
    x: real, y: real, velocityX: real, velocityY: real,
    weaponType: WeaponType, ownerPlayer: int, active: bool,
    bounceCount: int, ticksAlive: int, isRolling: bool, rollDirection: real)

  /**
   * One step of a shell, as a value. A spent shell is left as it is. A live
   * one ages by one tick; a roller keeps its height, slows by friction,
   * slides, and goes out when it drops below the stopping speed; any other
   * shell gains gravity and moves by its new velocity, and stays live.
   */
  function Ticked(v: ShellView, gravity: real): (t: ShellView)
    ensures !v.active ==> t == v
    ensures t.active ==> v.active
    ensures v.active ==> t.ticksAlive == v.ticksAlive + 1
    ensures t == v.(x := t.x, y := t.y, velocityX := t.velocityX, velocityY := t.velocityY,
                    active := t.active, ticksAlive := t.ticksAlive)
    ensures v.active && v.isRolling ==>
              && t.velocityX == v.velocityX * Friction && t.y == v.y && t.velocityY == v.velocityY
              && (t.active <==> Abs(t.velocityX) >= StopSpeed)
    ensures v.active && !v.isRolling ==>
              && t.velocityX == v.velocityX && t.velocityY == v.velocityY + gravity && t.active
    ensures v.active ==> t.x == v.x + t.velocityX
    ensures v.active && !v.isRolling ==> t.y == v.y + t.velocityY
  {
    if !v.active then v
    else if v.isRolling then
      var vx := v.velocityX * Friction;
      v.(ticksAlive := v.ticksAlive + 1, velocityX := vx, x := v.x + vx, active := Abs(vx) >= StopSpeed)
    else
      var vy := v.velocityY + gravity;
      v.(ticksAlive := v.ticksAlive + 1, velocityY := vy, x := v.x + v.velocityX, y := v.y + vy)
  }

  class Projectile {
    var x: real
    var y: real
    var velocityX: real
    var velocityY: real
    var weaponType: WeaponType
    var ownerPlayer: int
    var active: bool
    var bounceCount: int
    var ticksAlive: int
    var isRolling: bool
    var rollDirection: real

    /** The shell's current fields. */
    function View(): ShellView
      reads this
    {
      ShellView(x, y, velocityX, velocityY, weaponType, ownerPlayer, active, bounceCount, ticksAlive, isRolling, rollDirection)
    }

    /** A live shell at the barrel tip that has neither bounced nor rolled. */
    constructor (x: real, y: real, velocityX: real, velocityY: real, weaponType: WeaponType, ownerPlayer: int)
      ensures this.x == x && this.y == y && this.velocityX == velocityX && this.velocityY == velocityY
      ensures this.weaponType == weaponType && this.ownerPlayer == ownerPlayer
      ensures active && bounceCount == 0 && ticksAlive == 0 && !isRolling && rollDirection == 0.0
    {
      this.x := x;
      this.y := y;
      this.velocityX := velocityX;
      this.velocityY := velocityY;
      this.weaponType := weaponType;
      this.ownerPlayer := ownerPlayer;
      active := true;
      bounceCount := 0;
      ticksAlive := 0;
      isRolling := false;
      rollDirection := 0.0;
    }

    /** Overwrites every field with the given values. */
    method Set(v: ShellView)
      modifies this
      ensures View() == v
    {
      x, y, velocityX, velocityY := v.x, v.y, v.velocityX, v.velocityY;
      weaponType, ownerPlayer, active := v.weaponType, v.ownerPlayer, v.active;
      bounceCount, ticksAlive, isRolling, rollDirection := v.bounceCount, v.ticksAlive, v.isRolling, v.rollDirection;
    }

    /** One step, in place: the shell becomes Ticked of what it was, and a spent shell is not touched. */
    method Tick(gravity: real)
      modifies this
      ensures View() == Ticked(old(View()), gravity)
      ensures !old(active) ==> unchanged(this)
    {
      if !active {
        return;
      }
      ticksAlive := ticksAlive + 1;
      if isRolling {
        velocityX := velocityX * Friction;
        x := x + velocityX;
        if Abs(velocityX) < StopSpeed {
          active := false;
        }
      } else {
        velocityY := velocityY + gravity;
        x := x + velocityX;
        y := y + velocityY;
      }
    }
  }
}
