/**
  BazookoidsCore/Utility/Sphere.cs: a bounding sphere and the generator that
  packs a box with a regular grid of them.
 */
module Spheres {
  import opened Geometry

  /**
    A bounding sphere: a body-local centre and a radius. Nothing writes its
    properties after construction, so it is a value.
   */
  datatype Sphere = Sphere(position: Vec3, radius: real)

  /** The C# cast `(int)f`: truncation toward zero. */
  function Truncate(f: real): (n: int)
    ensures f >= 0.0 ==> 0 <= n && n as real <= f < n as real + 1.0
    ensures f < 0.0 ==> n <= 0 && n as real - 1.0 < f <= n as real
  {
    if f >= 0.0 then f.Floor else -((-f).Floor)
  }

  /**
    How many times the loop `for (i = 0; i < (int)f; i++)` runs: never when
    f < 1, otherwise the whole number of times f holds 1.
   */
  function Count(f: real): (n: nat)
    ensures f < 1.0 ==> n == 0
    ensures f >= 1.0 ==> 1 <= n && n as real <= f < n as real + 1.0
  {
    if Truncate(f) > 0 then Truncate(f) else 0
  }

  /**
    One component of `(max - min)/(packing + 1)`. When packing is -1 the C#
    code divides by zero, but then `(int)packing` is -1, no sphere is
    generated and the separation is never used; the model gives 0 there.
   */
  function SeparationOf(lo: real, hi: real, p: real): real
  {
    if p + 1.0 == 0.0 then 0.0 else (hi - lo) / (p + 1.0)
  }

  function Separation(min: Vec3, max: Vec3, packing: Vec3): Vec3
  {
    Vec3(SeparationOf(min.x, max.x, packing.x),
         SeparationOf(min.y, max.y, packing.y),
         SeparationOf(min.z, max.z, packing.z))
  }

  /** The arguments of one GenerateBox call. */
  datatype Box = Box(min: Vec3, max: Vec3, packing: Vec3, radius: real)

  /** The centre of the sphere at grid cell (x, y, z): startPosition + separation*(x, y, z). */
  function Centre(b: Box, x: int, y: int, z: int): Vec3
  {
    var separation := Separation(b.min, b.max, b.packing);
    var startPosition := Add(b.min, separation);
    Add(startPosition, Mul(separation, Vec3(x as real, y as real, z as real)))
  }

  /** The spheres the innermost loop appends for cell row (x, y), its first n cells. */
  function Row(b: Box, x: int, y: int, n: nat): (r: seq<Sphere>)
    ensures |r| == n
  {
    seq(n, z requires 0 <= z < n => Sphere(Centre(b, x, y, z), b.radius))
  }

  /** The spheres the middle loop appends for slab x, its first n rows of nz cells. */
  function Slab(b: Box, x: int, n: nat, nz: nat): seq<Sphere>
  {
    if n == 0 then [] else Slab(b, x, n - 1, nz) + Row(b, x, n - 1, nz)
  }

  /** The spheres the outer loop appends, its first n slabs of ny rows of nz cells. */
  function Block(b: Box, n: nat, ny: nat, nz: nat): seq<Sphere>
  {
    if n == 0 then [] else Block(b, n - 1, ny, nz) + Slab(b, n - 1, ny, nz)
  }

  /** Where GenerateBox puts cell (x, y, z) of a grid with ny rows of nz cells per slab. */
  function CellIndex(ny: nat, nz: nat, x: nat, y: nat, z: nat): nat
  {
    x * (ny * nz) + (y * nz + z)
  }

  /** One more row of m cells: (n - 1)*m + m cells make n rows. */
  lemma AddRow(n: nat, m: nat)
    requires n > 0
    ensures (n - 1) * m + m == n * m
  {
  }

  /** Element k of the second part of a concatenation sits at offset k past the first part. */
  lemma AtOffset(a: seq<Sphere>, c: seq<Sphere>, k: nat)
    requires k < |c|
    ensures |a| + k < |a + c| && (a + c)[|a| + k] == c[k]
  {
  }

  lemma {:induction false} SlabLength(b: Box, x: int, n: nat, nz: nat)
    ensures |Slab(b, x, n, nz)| == n * nz
  {
    if n > 0 {
      SlabLength(b, x, n - 1, nz);
      AddRow(n, nz);
    }
  }

  /** Cell (y, z) of slab x comes after the y rows before it. */
  lemma {:induction false} SlabAt(b: Box, x: int, n: nat, nz: nat, y: nat, z: nat)
    requires y < n && z < nz
    ensures |Slab(b, x, y, nz)| + z < |Slab(b, x, n, nz)|
    ensures Slab(b, x, n, nz)[|Slab(b, x, y, nz)| + z] == Sphere(Centre(b, x, y, z), b.radius)
  {
    if y < n - 1 {
      SlabAt(b, x, n - 1, nz, y, z);
    } else {
      assert y == n - 1;
      var prev, row := Slab(b, x, y, nz), Row(b, x, y, nz);
      assert Slab(b, x, n, nz) == prev + row;
      AtOffset(prev, row, z);
    }
  }

  lemma {:induction false} BlockLength(b: Box, n: nat, ny: nat, nz: nat)
    ensures |Block(b, n, ny, nz)| == n * (ny * nz)
  {
    if n > 0 {
      BlockLength(b, n - 1, ny, nz);
      SlabLength(b, n - 1, ny, nz);
      AddRow(n, ny * nz);
    }
  }

  /** Cell (x, y, z) comes after the x slabs and, within slab x, the y rows before it. */
  lemma {:induction false} BlockAt(b: Box, n: nat, ny: nat, nz: nat, x: nat, y: nat, z: nat)
    requires x < n && y < ny && z < nz
    ensures |Block(b, x, ny, nz)| + |Slab(b, x, y, nz)| + z < |Block(b, n, ny, nz)|
    ensures Block(b, n, ny, nz)[|Block(b, x, ny, nz)| + |Slab(b, x, y, nz)| + z] == Sphere(Centre(b, x, y, z), b.radius)
  {
    if x < n - 1 {
      BlockAt(b, n - 1, ny, nz, x, y, z);
    } else {
      assert x == n - 1;
      var prev, slab := Block(b, x, ny, nz), Slab(b, x, ny, nz);
      assert Block(b, n, ny, nz) == prev + slab;
      SlabAt(b, x, ny, nz, y, z);
      AtOffset(prev, slab, |Slab(b, x, y, nz)| + z);
    }
  }

  lemma {:induction false} RadiusOfSlab(b: Box, x: int, n: nat, nz: nat)
    ensures forall s :: s in Slab(b, x, n, nz) ==> s.radius == b.radius
  {
    if n > 0 {
      var prev := Slab(b, x, n - 1, nz);
      var row := Row(b, x, n - 1, nz);
      RadiusOfSlab(b, x, n - 1, nz);
      forall s: Sphere | s in prev + row
        ensures s.radius == b.radius
      {
        assert s in prev || s in row;
      }
    }
  }

  lemma {:induction false} RadiusOfBlock(b: Box, n: nat, ny: nat, nz: nat)
    ensures forall s :: s in Block(b, n, ny, nz) ==> s.radius == b.radius
  {
    if n > 0 {
      var prev := Block(b, n - 1, ny, nz);
      var slab := Slab(b, n - 1, ny, nz);
      RadiusOfBlock(b, n - 1, ny, nz);
      RadiusOfSlab(b, n - 1, ny, nz);
      forall s: Sphere | s in prev + slab
        ensures s.radius == b.radius
      {
        assert s in prev || s in slab;
      }
    }
  }

  /**
    Sphere.GenerateBox: (int)packing.X by (int)packing.Y by (int)packing.Z
    spheres of the given radius, evenly spread strictly inside the box
    [min, max] (see CentreInsideBox), listed with x outermost and z innermost;
    none when any truncated component is not positive.
   */
  method GenerateBox(min: Vec3, max: Vec3, packing: Vec3, radius: real) returns (result: seq<Sphere>)
    ensures var nx, ny, nz := Count(packing.x), Count(packing.y), Count(packing.z);
      && |result| == nx * (ny * nz)
      && (Truncate(packing.x) <= 0 || Truncate(packing.y) <= 0 || Truncate(packing.z) <= 0 ==> result == [])
      && (forall s :: s in result ==> s.radius == radius)
      && (forall x, y, z :: 0 <= x < nx && 0 <= y < ny && 0 <= z < nz ==>
            CellIndex(ny, nz, x, y, z) < |result| &&
            result[CellIndex(ny, nz, x, y, z)].position == Centre(Box(min, max, packing, radius), x, y, z))
  {
    ghost var b := Box(min, max, packing, radius);
    ghost var nx, ny, nz := Count(packing.x), Count(packing.y), Count(packing.z);
    result := [];
    var separation := Separation(min, max, packing);
    var startPosition := Add(min, separation);
    var x := 0;
    while x < Truncate(packing.x)
      invariant 0 <= x <= nx
      invariant result == Block(b, x, ny, nz)
    {
      var y := 0;
      while y < Truncate(packing.y)
        invariant 0 <= y <= ny
        invariant result == Block(b, x, ny, nz) + Slab(b, x, y, nz)
      {
        var z := 0;
        while z < Truncate(packing.z)
          invariant 0 <= z <= nz
          invariant result == Block(b, x, ny, nz) + Slab(b, x, y, nz) + Row(b, x, y, z)
        {
          result := result + [Sphere(Add(startPosition, Mul(separation, Vec3(x as real, y as real, z as real))), radius)];
          assert Row(b, x, y, z + 1) == Row(b, x, y, z) + [Sphere(Centre(b, x, y, z), radius)];
          z := z + 1;
        }
        y := y + 1;
      }
      x := x + 1;
    }
    assert result == Block(b, nx, ny, nz);
    BlockLayout(b, nx, ny, nz);
  }

  /** Everything GenerateBox promises about the spheres of a completed grid. */
  lemma BlockLayout(b: Box, nx: nat, ny: nat, nz: nat)
    ensures |Block(b, nx, ny, nz)| == nx * (ny * nz)
    ensures nx == 0 || ny == 0 || nz == 0 ==> Block(b, nx, ny, nz) == []
    ensures forall s :: s in Block(b, nx, ny, nz) ==> s.radius == b.radius
    ensures forall x, y, z :: 0 <= x < nx && 0 <= y < ny && 0 <= z < nz ==>
      CellIndex(ny, nz, x, y, z) < |Block(b, nx, ny, nz)| &&
      Block(b, nx, ny, nz)[CellIndex(ny, nz, x, y, z)].position == Centre(b, x, y, z)
  {
    BlockLength(b, nx, ny, nz);
    assert nx == 0 || ny == 0 || nz == 0 ==> nx * (ny * nz) == 0;
    RadiusOfBlock(b, nx, ny, nz);
    forall x, y, z | 0 <= x < nx && 0 <= y < ny && 0 <= z < nz
      ensures CellIndex(ny, nz, x, y, z) < |Block(b, nx, ny, nz)|
      ensures Block(b, nx, ny, nz)[CellIndex(ny, nz, x, y, z)].position == Centre(b, x, y, z)
    {
      BlockAt(b, nx, ny, nz, x, y, z);
      BlockLength(b, x, ny, nz);
      SlabLength(b, x, y, nz);
    }
  }

  /** One component of a grid centre lies strictly between lo and hi. */
  lemma StrictlyBetween(lo: real, hi: real, p: real, i: int)
    requires lo < hi && 0.0 <= p
    requires 0 <= i < Count(p)
    ensures lo < lo + SeparationOf(lo, hi, p) + SeparationOf(lo, hi, p) * (i as real) < hi
  {
    var s := SeparationOf(lo, hi, p);
    assert s == (hi - lo) / (p + 1.0);
    assert s > 0.0;
    var k := (i + 1) as real;
    assert 1.0 <= k <= p;
    assert s + s * (i as real) == s * k;
    assert s * k < s * (p + 1.0) == hi - lo;
  }

  /**
    With min < max in every component and a non-negative packing, every
    centre GenerateBox produces lies strictly inside the box.
   */
  lemma CentreInsideBox(min: Vec3, max: Vec3, packing: Vec3, x: int, y: int, z: int)
    requires min.x < max.x && min.y < max.y && min.z < max.z
    requires 0.0 <= packing.x && 0.0 <= packing.y && 0.0 <= packing.z
    requires 0 <= x < Count(packing.x) && 0 <= y < Count(packing.y) && 0 <= z < Count(packing.z)
    ensures var c := Centre(Box(min, max, packing, 0.0), x, y, z);
      min.x < c.x < max.x && min.y < c.y < max.y && min.z < c.z < max.z
  {
    var c := Centre(Box(min, max, packing, 0.0), x, y, z);
    assert min.x < c.x < max.x by { StrictlyBetween(min.x, max.x, packing.x, x); }
    assert min.y < c.y < max.y by { StrictlyBetween(min.y, max.y, packing.y, y); }
    assert min.z < c.z < max.z by { StrictlyBetween(min.z, max.z, packing.z, z); }
  }
}
