/**
 * The artillery battlefield: a heightmap of 1200 columns, generated from
 * five sine layers clamped into [200, 500], dug out by explosions (never
 * below 10), sampled by linear interpolation, and sent to clients as every
 * fourth column rounded to a tenth.
 */
module Terrains {
  import opened Numerics

  const Width: nat := 1200
  const MinHeight: real := 200.0
  const MaxHeight: real := 500.0
  /** Middle of the generated band, where every layer starts from. */
  const BaseHeight: real := (MinHeight + MaxHeight) / 2.0
  /** The floor an explosion never digs below. */
  const Bedrock: real := 10.0
  /** Number of samples Serialize sends: every fourth column. */
  const SampleCount: nat := (Width + 3) / 4

  const Amplitudes: seq<real> := [80.0, 50.0, 30.0, 15.0, 8.0]
  const Frequencies: seq<real> := [0.002, 0.005, 0.012, 0.025, 0.05]

  /** Height of column x after the first n sine layers, summed in order. */
  function Wave(m: MathLib, offsets: seq<real>, x: int, n: nat): real
    requires |offsets| == 5 && n <= 5
  {
    if n == 0 then BaseHeight
    else Wave(m, offsets, x, n - 1) + Amplitudes[n - 1] * m.sin(x as real * Frequencies[n - 1] + offsets[n - 1])
  }

  /** How far the first n layers can reach from the base height: the sum of their amplitudes. */
  function Reach(n: nat): (r: real)
    requires n <= 5
    ensures r >= 0.0
  {
    if n == 0 then 0.0 else Reach(n - 1) + Amplitudes[n - 1]
  }

  /**
   * For a sine that stays in [-1, 1], the first n layers keep a column
   * within Reach(n) of the base height; all five give [167, 533], which
   * the clamp to [200, 500] then cuts at both ends.
   */
  lemma {:induction false} WaveBounds(m: MathLib, offsets: seq<real>, x: int, n: nat)
    requires |offsets| == 5 && n <= 5
    requires forall v :: -1.0 <= m.sin(v) <= 1.0
    ensures BaseHeight - Reach(n) <= Wave(m, offsets, x, n) <= BaseHeight + Reach(n)
    ensures n == 5 ==> 167.0 <= Wave(m, offsets, x, n) <= 533.0
  {
    if n > 0 {
      WaveBounds(m, offsets, x, n - 1);
      var sv := m.sin(x as real * Frequencies[n - 1] + offsets[n - 1]);
      var a := Amplitudes[n - 1];
      assert a > 0.0;
      assert -a <= a * sv <= a by {
        assert a * sv - a == a * (sv - 1.0) && a * sv + a == a * (sv + 1.0);
      }
    }
    if n == 5 {
      assert Reach(1) == 80.0 && Reach(2) == 130.0 && Reach(3) == 160.0 && Reach(4) == 175.0;
    }
  }

  /** First column an explosion at cx with radius r visits. */
  function StartX(cx: real, r: real): int
  {
    MaxInt(0, Trunc(cx - r))
  }

  /** Last column an explosion at cx with radius r visits. */
  function EndX(cx: real, r: real): int
  {
    MinInt(Width - 1, Trunc(cx + r))
  }

  /** Column x is dug: it lies in the visited range and strictly within the radius. */
  predicate Dug(x: int, cx: real, r: real)
  {
    StartX(cx, r) <= x <= EndX(cx, r) && Abs(x as real - cx) < r
  }

  /** Depth of the circular crater at column x. */
  function Depth(sqrt: real -> real, x: int, cx: real, r: real): real
  {
    var dx := x as real - cx;
    sqrt(r * r - dx * dx)
  }

  /** Column x of height h after an explosion at cx with radius r. */
  function Carved(h: real, x: int, cx: real, r: real, sqrt: real -> real): real
  {
    if Dug(x, cx, r) then Max(Bedrock, h - Depth(sqrt, x, cx, r)) else h
  }

  /** The heightmap after an explosion at cx with radius r. */
  function Deformed(h: seq<real>, cx: real, r: real, sqrt: real -> real): (d: seq<real>)
    ensures |d| == |h|
  {
    seq(|h|, x requires 0 <= x < |h| => Carved(h[x], x, cx, r, sqrt))
  }

  /**
   * The visited range loses nothing: on the map, a column is dug exactly
   * when it lies strictly within the radius of the centre.
   */
  lemma DugIsWithinRadius(x: int, cx: real, r: real)
    requires 0 <= x < Width
    ensures Dug(x, cx, r) <==> Abs(x as real - cx) < r
  {
    if Abs(x as real - cx) < r {
      var lo := Trunc(cx - r);
      var hi := Trunc(cx + r);
      if cx - r >= 0.0 {
        assert lo as real <= cx - r < x as real;
      } else {
        assert lo <= 0;
      }
      assert x as real < cx + r;
      assert hi as real + 1.0 > cx + r;
      assert x <= hi;
    }
  }

  /**
   * An explosion leaves every dug column at or above the floor, never
   * raises a column already at or above it, and leaves other columns alone.
   */
  lemma DeformedBounds(h: seq<real>, cx: real, r: real, m: MathLib, x: int)
    requires Sound(m) && |h| == Width && 0 <= x < Width
    ensures Abs(x as real - cx) < r ==> Deformed(h, cx, r, m.sqrt)[x] >= Bedrock
    ensures h[x] >= Bedrock ==> Deformed(h, cx, r, m.sqrt)[x] <= h[x]
    ensures Abs(x as real - cx) >= r ==> Deformed(h, cx, r, m.sqrt)[x] == h[x]
  {
    DugIsWithinRadius(x, cx, r);
    assert Depth(m.sqrt, x, cx, r) >= 0.0;
  }

  /** The ground height under x on a heightmap h, read as Terrain.GetHeightAt reads its own map. */
  function HeightOf(h: seq<real>, x: real): real
    requires |h| == Width
  {
    if x < 0.0 then 0.0
    else if x >= (Width - 1) as real then h[Width - 1]
    else
      var i := Trunc(x);
      var frac := x - i as real;
      h[i] * (1.0 - frac) + h[i + 1] * frac
  }

  /** Linear interpolation between a and b stays between them. */
  lemma LerpBetween(a: real, b: real, f: real)
    requires 0.0 <= f <= 1.0
    ensures a <= b ==> a <= a * (1.0 - f) + b * f <= b
    ensures b <= a ==> b <= a * (1.0 - f) + b * f <= a
  {
    assert a * (1.0 - f) + b * f == a + (b - a) * f;
    var d := if a <= b then b - a else a - b;
    NonNegativeProduct(d, f);
    NonNegativeProduct(d, 1.0 - f);
    assert d * f + d * (1.0 - f) == d;
  }

  lemma NonNegativeProduct(p: real, q: real)
    requires p >= 0.0 && q >= 0.0
    ensures p * q >= 0.0
  {
  }

  class Terrain {
    const heights: array<real>

    ghost predicate Valid()
    {
      heights.Length == Width
    }

    /** A flat map at height zero, as a fresh float array is. */
    constructor ()
      ensures Valid() && fresh(heights)
      ensures forall x :: 0 <= x < Width ==> heights[x] == 0.0
    {
      heights := new real[Width](_ => 0.0);
    }

    /** Fills every column from the layered sines, clamped into [200, 500]. */
    method Generate(m: MathLib, offsets: seq<real>)
      requires Valid() && |offsets| == 5
      modifies heights
      ensures forall x :: 0 <= x < Width ==> heights[x] == Clamp(Wave(m, offsets, x, 5), MinHeight, MaxHeight)
      ensures forall x :: 0 <= x < Width ==> MinHeight <= heights[x] <= MaxHeight
    {
      var x := 0;
      while x < Width
        invariant 0 <= x <= Width
        invariant forall k :: 0 <= k < x ==> heights[k] == Clamp(Wave(m, offsets, k, 5), MinHeight, MaxHeight)
      {
        var height := BaseHeight;
        var n := 0;
        while n < 5
          invariant 0 <= n <= 5
          invariant height == Wave(m, offsets, x, n)
        {
          height := height + Amplitudes[n] * m.sin(x as real * Frequencies[n] + offsets[n]);
          n := n + 1;
        }
        heights[x] := Clamp(height, MinHeight, MaxHeight);
        x := x + 1;
      }
    }

    /** Digs a circular crater of radius r centred on column cx. */
    method Deform(cx: real, r: real, m: MathLib)
      requires Valid()
      modifies heights
      ensures heights[..] == Deformed(old(heights[..]), cx, r, m.sqrt)
    {
      ghost var target := Deformed(heights[..], cx, r, m.sqrt);
      var startX := MaxInt(0, Trunc(cx - r));
      var endX := MinInt(Width - 1, Trunc(cx + r));
      var x := startX;
      while x <= endX
        invariant startX <= x <= MaxInt(startX, endX + 1)
        invariant forall k :: 0 <= k < Width ==> heights[k] == if k < x then target[k] else old(heights[k])
      {
        ghost var before := heights[x];
        var dx := x as real - cx;
        var dist := Abs(dx);
        if dist < r {
          var depth := Depth(m.sqrt, x, cx, r);
          heights[x] := Max(Bedrock, heights[x] - depth);
        }
        assert heights[x] == Carved(before, x, cx, r, m.sqrt);
        x := x + 1;
      }
      assert heights[..] == target;
    }

    /**
     * The ground height under horizontal position x: zero left of the map,
     * the last column from column 1199 on, and in between a blend of the
     * two neighbouring columns.
     */
    function GetHeightAt(x: real): (h: real)
      requires Valid()
      reads heights
      ensures x < 0.0 ==> h == 0.0
      ensures x >= (Width - 1) as real ==> h == heights[Width - 1]
      ensures 0.0 <= x < (Width - 1) as real ==>
                var i := Trunc(x);
                0 <= i < Width - 1
                && (heights[i] <= heights[i + 1] ==> heights[i] <= h <= heights[i + 1])
                && (heights[i + 1] <= heights[i] ==> heights[i + 1] <= h <= heights[i])
    {
      if x < 0.0 then 0.0
      else if x >= (Width - 1) as real then heights[Width - 1]
      else Interpolate(x)
    }

    /** The map's own reading agrees with HeightOf on a copy of it. */
    lemma HeightOfMatches(x: real)
      requires Valid()
      ensures GetHeightAt(x) == HeightOf(heights[..], x)
    {
    }

    /**
     * The blend of the two columns around x. (The source guards a second
     * time against the last column here; below 1199 that guard never fires.)
     */
    function Interpolate(x: real): (h: real)
      requires Valid() && 0.0 <= x < (Width - 1) as real
      reads heights
      ensures var i := Trunc(x);
                0 <= i < Width - 1
                && (heights[i] <= heights[i + 1] ==> heights[i] <= h <= heights[i + 1])
                && (heights[i + 1] <= heights[i] ==> heights[i + 1] <= h <= heights[i])
    {
      var ix := Trunc(x);
      var frac := x - ix as real;
      LerpBetween(heights[ix], heights[ix + 1], frac);
      heights[ix] * (1.0 - frac) + heights[ix + 1] * frac
    }

    /** Every fourth column, rounded to a tenth: the compact form sent to clients. */
    method Serialize() returns (samples: array<real>)
      requires Valid()
      ensures fresh(samples) && samples.Length == SampleCount == 300
      ensures forall i :: 0 <= i < SampleCount ==> samples[i] == RoundTenth(heights[4 * i])
      ensures forall i :: 0 <= i < SampleCount ==> heights[4 * i] - 0.05 <= samples[i] <= heights[4 * i] + 0.05
    {
      samples := new real[SampleCount];
      var i := 0;
      while i < SampleCount
        invariant 0 <= i <= SampleCount
        invariant forall k :: 0 <= k < i ==> samples[k] == RoundTenth(heights[4 * k])
      {
        var x := i * 4;
        if x < Width {
          samples[i] := RoundTenth(heights[x]);
        }
        i := i + 1;
      }
    }
  }
}
