/**
 * The artillery weapons: the data table every shot and explosion reads,
 * and the random inventory each player starts with (one Standard shell plus
 * shells drawn pass by pass from the other seven kinds, then shuffled).
 */
module Weapons {
  datatype WeaponType = Standard | BigShot | Sniper | DirtMover | Bouncer | ThreeShot | Roller | Nuke

  /** One row of the weapon table. */
  datatype WeaponData = WeaponData(
    kind: WeaponType,
    name: string,
    blastRadius: real,
    damage: real,
    velocityMultiplier: real,
    maxBounces: int,
    rolls: bool,
    projectileCount: int,
    spreadAngle: real)

  /** A row with the table's defaults: one projectile, no bounce, no roll, no spread, unit speed. */
  function Plain(kind: WeaponType, name: string, blastRadius: real, damage: real): WeaponData
  {
    WeaponData(kind, name, blastRadius, damage, 1.0, 0, false, 1, 0.0)
  }

  /**
   * The table lookup. Every kind has a row that names it; only three rows
   * leave the single straight shot: Bouncer bounces (three times), Roller
   * rolls, and 3-Shot fires three shells spread 25 degrees apart.
   */
  function Get(t: WeaponType): (w: WeaponData)
    ensures w.kind == t
    ensures w.blastRadius > 0.0 && w.damage > 0.0 && w.velocityMultiplier > 0.0
    ensures w.projectileCount >= 1 && w.maxBounces >= 0
    ensures w.maxBounces > 0 <==> t == Bouncer
    ensures w.rolls <==> t == Roller
    ensures w.projectileCount != 1 <==> t == ThreeShot
    ensures t == Bouncer ==> w.maxBounces == 3
    ensures t == ThreeShot ==> w.projectileCount == 3 && w.spreadAngle == 25.0
  {
    match t
    case Standard => Plain(Standard, "STANDARD", 30.0, 20.0)
    case BigShot => Plain(BigShot, "BIG SHOT", 50.0, 35.0)
    case Sniper => Plain(Sniper, "SNIPER", 15.0, 40.0).(velocityMultiplier := 1.8)
    case DirtMover => Plain(DirtMover, "DIRT MOVER", 90.0, 5.0)
    case Bouncer => Plain(Bouncer, "BOUNCER", 25.0, 15.0).(maxBounces := 3)
    case ThreeShot => Plain(ThreeShot, "3-SHOT", 25.0, 15.0).(projectileCount := 3, spreadAngle := 25.0)
    case Roller => Plain(Roller, "ROLLER", 20.0, 25.0).(rolls := true)
    case Nuke => Plain(Nuke, "NUKE", 90.0, 50.0)
  }

  /** The fill pool: every kind but Standard, in declaration order. */
  const Pool: seq<WeaponType> := [BigShot, Sniper, DirtMover, Bouncer, ThreeShot, Roller, Nuke]

  /**
   * One random reordering of the pool (the source sorts it by random
   * keys): seven distinct kinds, none of them Standard.
   */
  predicate IsPoolOrder(p: seq<WeaponType>)
  {
    && |p| == 7
    && (forall i :: 0 <= i < |p| ==> p[i] != Standard)
    && (forall i, j :: 0 <= i < j < |p| ==> p[i] != p[j])
  }

  /**
   * The random draws of one inventory: `pass(k)` is the order of the k-th
   * fill pass, and `pick(i)` the index the shuffle swaps with position i.
   */
  datatype WeaponDraws = WeaponDraws(pass: nat -> seq<WeaponType>, pick: nat -> nat)

  /** The ranges the random source guarantees. */
  ghost predicate Fair(d: WeaponDraws)
  {
    && (forall k: nat :: IsPoolOrder(d.pass(k)))
    && (forall i: nat :: d.pick(i) <= i)
  }

  /** The i-th kind the fill passes offer: position i % 7 of pass i / 7. */
  function Slot(pass: nat -> seq<WeaponType>, i: nat): (t: WeaponType)
    requires forall k: nat :: IsPoolOrder(pass(k))
    ensures t != Standard
  {
    var p := pass(i / 7);
    assert IsPoolOrder(p);
    p[i % 7]
  }

  /** The first `m` kinds taken by the fill passes, one pass after another. */
  function Stream(pass: nat -> seq<WeaponType>, m: nat): (s: seq<WeaponType>)
    requires forall k: nat :: IsPoolOrder(pass(k))
    ensures |s| == m
    ensures forall i :: 0 <= i < m ==> s[i] == Slot(pass, i)
  {
    if m == 0 then [] else Stream(pass, m - 1) + [Slot(pass, m - 1)]
  }

  /** Inventory size for a requested count: the one Standard is always there. */
  function Size(count: int): (n: nat)
    ensures n >= 1 && n >= count
  {
    if count < 1 then 1 else count
  }

  /** The inventory before the final shuffle: Standard, then the fill. */
  function Filled(count: int, pass: nat -> seq<WeaponType>): (s: seq<WeaponType>)
    requires forall k: nat :: IsPoolOrder(pass(k))
    ensures |s| == Size(count) && s[0] == Standard
  {
    [Standard] + Stream(pass, Size(count) - 1)
  }

  /** The pre-shuffle inventory holds exactly one Standard. */
  lemma {:induction false} OneStandard(count: int, pass: nat -> seq<WeaponType>)
    requires forall k: nat :: IsPoolOrder(pass(k))
    ensures multiset(Filled(count, pass))[Standard] == 1
  {
    var s := Stream(pass, Size(count) - 1);
    assert Standard !in s;
    assert Filled(count, pass) == [Standard] + s;
  }

  /** Within one fill pass no kind is taken twice. */
  lemma OnePassNoRepeats(count: int, pass: nat -> seq<WeaponType>, a: int, b: int)
    requires forall k: nat :: IsPoolOrder(pass(k))
    requires 1 <= a < b < Size(count) && (a - 1) / 7 == (b - 1) / 7
    ensures Filled(count, pass)[a] != Filled(count, pass)[b]
  {
    var s := Stream(pass, Size(count) - 1);
    assert Filled(count, pass)[a] == s[a - 1] && Filled(count, pass)[b] == s[b - 1];
    assert (a - 1) % 7 < (b - 1) % 7;
    assert IsPoolOrder(pass((a - 1) / 7));
  }

  /**
   * Draws an inventory of `count` kinds (at least one): Standard, then
   * whole or partial passes over the pool, then a Fisher-Yates shuffle in
   * place.
   */
  method GetRandomWeapons(count: int, draws: WeaponDraws) returns (r: seq<WeaponType>)
    requires Fair(draws)
    ensures |r| == Size(count)
    ensures multiset(r) == multiset(Filled(count, draws.pass))
    ensures multiset(r)[Standard] == 1
  {
    var result := Fill(count, draws.pass);
    var a := new WeaponType[|result|](j requires 0 <= j < |result| => result[j]);
    assert a[..] == result;
    Shuffle(a, draws.pick);
    r := a[..];
    OneStandard(count, draws.pass);
  }

  /** The fill loop: Standard, then kinds from successive passes until `count` are held. */
  method Fill(count: int, pass: nat -> seq<WeaponType>) returns (result: seq<WeaponType>)
    requires forall k: nat :: IsPoolOrder(pass(k))
    ensures result == Filled(count, pass)
  {
    result := [Standard];
    var k := 0;
    while |result| < count
      invariant 1 <= |result| <= Size(count)
      invariant result == [Standard] + Stream(pass, |result| - 1)
      invariant |result| < count ==> |result| - 1 == 7 * k
      decreases count - |result|
    {
      var shuffled := pass(k);
      var i := 0;
      while i < |shuffled|
        invariant 0 <= i <= |shuffled| == 7
        invariant |result| - 1 == 7 * k + i
        invariant 1 <= |result| <= Size(count)
        invariant result == [Standard] + Stream(pass, |result| - 1)
      {
        if |result| >= count {
          break;
        }
        var n := |result| - 1;
        assert n / 7 == k && n % 7 == i;
        assert Stream(pass, n + 1) == Stream(pass, n) + [Slot(pass, n)];
        result := result + [shuffled[i]];
        i := i + 1;
      }
      k := k + 1;
    }
  }

  /** Fisher-Yates from the last position down: swaps only, so the contents are kept. */
  method Shuffle(a: array<WeaponType>, pick: nat -> nat)
    requires forall i: nat :: pick(i) <= i
    modifies a
    ensures multiset(a[..]) == multiset(old(a[..]))
  {
    if a.Length == 0 {
      return;
    }
    var i := a.Length - 1;
    while i > 0
      invariant 0 <= i < a.Length
      invariant multiset(a[..]) == multiset(old(a[..]))
    {
      var j := pick(i);
      a[i], a[j] := a[j], a[i];
      i := i - 1;
    }
  }
}
