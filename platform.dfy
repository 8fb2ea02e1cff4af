/**
 * The platform under the terrain: a vertical wall around the rim of the
 * grid.  The rim is walked along its four edges; every rim sample emits two
 * vertices of six floats (position, then a second attribute): a bottom vertex
 * at the base height -0.5 and a top vertex at the terrain's own height.  The
 * wall is one quad between each rim sample and the next, closing up at the
 * start.
 */
module Platform {
  import opened Terrain

  /** Height of the bottom edge of the platform wall. */
  const BaseHeight: real := -0.5

  /** Number of rim samples the four edge walks visit: w + w + (w - 1) + (w - 1). */
  function RimLength(w: nat): nat
    requires w >= 1
  {
    4 * w - 2
  }

  /**
   * The k-th rim sample in walk order: along z = 0 with x rising, along
   * x = w-1 with z rising, along z = w-1 with x falling to 1, then along
   * x = 0 with z falling to 1.  Every sample is a boundary point of the grid.
   */
  function RimPoint(w: nat, k: nat): (p: (nat, nat))
    requires w >= 1 && k < RimLength(w)
    ensures InGrid(w, p.0, p.1)
    ensures p.0 == 0 || p.0 == w - 1 || p.1 == 0 || p.1 == w - 1
  {
    if k < w then (k, 0)
    else if k < 2 * w then (w - 1, k - w)
    else if k < 3 * w - 1 then (w - 1 - (k - 2 * w), w - 1)
    else (0, w - 1 - (k - (3 * w - 1)))
  }

  /** The walk reaches every boundary point of the grid. */
  lemma RimCoversBoundary(w: nat, x: nat, z: nat)
    requires w >= 1 && InGrid(w, x, z)
    requires x == 0 || x == w - 1 || z == 0 || z == w - 1
    ensures exists k :: 0 <= k < RimLength(w) && RimPoint(w, k) == (x, z)
  {
    if z == 0 {
      assert RimPoint(w, x) == (x, z);
    } else if x == w - 1 {
      assert RimPoint(w, w + z) == (x, z);
    } else if z == w - 1 {
      assert RimPoint(w, 2 * w + (w - 1 - x)) == (x, z);
    } else {
      assert RimPoint(w, 3 * w - 1 + (w - 1 - z)) == (x, z);
    }
  }

  /**
   * The twelve floats of one rim sample at grid point (x, z) with terrain
   * point (X, Y, Z): bottom vertex (X, -0.5, Z) with attribute (X, 0, Z), then
   * top vertex (X, Y, Z) with attribute (X, 0, Z).
   */
  function RimSample(verts: seq<real>, w: nat, x: nat, z: nat): seq<real>
    requires |verts| == 3 * w * w && InGrid(w, x, z)
  {
    PointIndexInRange(w, x, z);
    var p := VertexAt(verts, PointIndex(w, x, z));
    [p.x, BaseHeight, p.z, p.x, 0.0, p.z, p.x, p.y, p.z, p.x, 0.0, p.z]
  }

  /**
   * Two corners are visited twice: each walk starts where the previous one
   * stopped at (w-1, 0) and at (w-1, w-1), while the last walk stops short of
   * (0, 0).  The wall quads between these repeated samples have zero width.
   */
  lemma RimCornersRepeat(w: nat)
    requires w >= 2
    ensures RimPoint(w, w - 1) == RimPoint(w, w) == (w - 1, 0)
    ensures RimPoint(w, 2 * w - 1) == RimPoint(w, 2 * w) == (w - 1, w - 1)
    ensures RimPoint(w, RimLength(w) - 1) == (0, 1) && RimPoint(w, 0) == (0, 0)
  {
  }

  /** The floats of the first n rim samples in walk order. */
  function Rim(verts: seq<real>, w: nat, n: nat): seq<real>
    requires w >= 1 && |verts| == 3 * w * w && n <= RimLength(w)
  {
    if n == 0 then []
    else
      var p := RimPoint(w, n - 1);
      Rim(verts, w, n - 1) + RimSample(verts, w, p.0, p.1)
  }

  /** Sample n of the walk extends the first n samples. */
  lemma RimStep(verts: seq<real>, w: nat, n: nat, x: nat, z: nat)
    requires w >= 1 && |verts| == 3 * w * w && n < RimLength(w)
    requires RimPoint(w, n) == (x, z)
    ensures Rim(verts, w, n + 1) == Rim(verts, w, n) + RimSample(verts, w, x, z)
  {
  }

  /** The first n samples take 12n floats, and sample k sits at floats 12k .. 12k+11. */
  lemma {:induction false} RimLayout(verts: seq<real>, w: nat, n: nat, k: nat)
    requires w >= 1 && |verts| == 3 * w * w && n <= RimLength(w)
    ensures |Rim(verts, w, n)| == 12 * n
    ensures k < n ==> forall j :: 0 <= j < 12 ==>
              Rim(verts, w, n)[12 * k + j] == RimSample(verts, w, RimPoint(w, k).0, RimPoint(w, k).1)[j]
  {
    if n > 0 {
      RimLayout(verts, w, n - 1, k);
      if k < n - 1 {
        assert Rim(verts, w, n) == Rim(verts, w, n - 1) + RimSample(verts, w, RimPoint(w, n - 1).0, RimPoint(w, n - 1).1);
      }
    }
  }

  /** The whole walk: 12 floats per rim point, in walk order. */
  lemma RimLayoutAll(verts: seq<real>, w: nat, pv: seq<real>)
    requires w >= 1 && |verts| == 3 * w * w
    requires pv == Rim(verts, w, RimLength(w))
    ensures |pv| == 12 * RimLength(w)
    ensures forall k, j :: 0 <= k < RimLength(w) && 0 <= j < 12 ==>
              pv[12 * k + j] == RimSample(verts, w, RimPoint(w, k).0, RimPoint(w, k).1)[j]
  {
    var n := RimLength(w);
    RimLayout(verts, w, n, 0);
    forall k | 0 <= k < n
      ensures forall j :: 0 <= j < 12 ==>
                Rim(verts, w, n)[12 * k + j] == RimSample(verts, w, RimPoint(w, k).0, RimPoint(w, k).1)[j]
    {
      RimLayout(verts, w, n, k);
    }
  }

  /**
   * One copy of the block the four edge walks repeat: push the twelve floats
   * of the rim sample at (x, z), reading the terrain buffer at 3*(z*w + x).
   */
  method PushRimSample(pv: seq<real>, verts: seq<real>, w: nat, x: nat, z: nat) returns (pv': seq<real>)
    requires |verts| == 3 * w * w && InGrid(w, x, z)
    ensures pv' == pv + RimSample(verts, w, x, z)
  {
    PointIndexInRange(w, x, z);
    var at := RowMajor(w, x, z) * 3;
    pv' := pv + [verts[at], BaseHeight, verts[at + 2]];
    pv' := pv' + [verts[at], 0.0, verts[at + 2]];
    pv' := pv' + [verts[at], verts[at + 1], verts[at + 2]];
    pv' := pv' + [verts[at], 0.0, verts[at + 2]];
  }

  /** Push rim sample n, at grid point (x, z), onto the first n samples. */
  method ExtendRim(pv: seq<real>, verts: seq<real>, w: nat, ghost n: nat, x: nat, z: nat) returns (pv': seq<real>)
    requires w >= 1 && |verts| == 3 * w * w && n < RimLength(w)
    requires RimPoint(w, n) == (x, z) && pv == Rim(verts, w, n)
    ensures pv' == Rim(verts, w, n + 1)
  {
    pv' := PushRimSample(pv, verts, w, x, z);
    RimStep(verts, w, n, x, z);
  }

  lemma RimPointOnFarEdge(w: nat, x: nat)
    requires 0 < x < w
    ensures 3 * w - 1 - x < RimLength(w) && RimPoint(w, 3 * w - 1 - x) == (x, w - 1)
  {
  }

  lemma RimPointOnLeftEdge(w: nat, z: nat)
    requires 0 < z < w
    ensures RimLength(w) - z < RimLength(w) && RimPoint(w, RimLength(w) - z) == (0, z)
  {
  }

  /** First edge walk: along z = 0 with x rising, rim samples 0 .. w-1. */
  method WalkNearEdge(verts: seq<real>, w: nat) returns (pv: seq<real>)
    requires w >= 1 && |verts| == 3 * w * w
    ensures pv == Rim(verts, w, w)
  {
    pv := [];
    var x := 0;
    while x < w
      invariant 0 <= x <= w
      invariant pv == Rim(verts, w, x)
    {
      pv := ExtendRim(pv, verts, w, x, x, 0);
      x := x + 1;
    }
  }

  /** Second edge walk: along x = w-1 with z rising, rim samples w .. 2w-1. */
  method WalkRightEdge(pv0: seq<real>, verts: seq<real>, w: nat) returns (pv: seq<real>)
    requires w >= 1 && |verts| == 3 * w * w
    requires pv0 == Rim(verts, w, w)
    ensures pv == Rim(verts, w, 2 * w)
  {
    pv := pv0;
    var z := 0;
    ghost var n := w;
    while z < w
      invariant 0 <= z <= w && n == w + z
      invariant pv == Rim(verts, w, n)
    {
      pv := ExtendRim(pv, verts, w, n, w - 1, z);
      z := z + 1;
      n := n + 1;
    }
  }

  /** Third edge walk: along z = w-1 with x falling to 1, rim samples 2w .. 3w-2. */
  method WalkFarEdge(pv0: seq<real>, verts: seq<real>, w: nat) returns (pv: seq<real>)
    requires w >= 1 && |verts| == 3 * w * w
    requires pv0 == Rim(verts, w, 2 * w)
    ensures pv == Rim(verts, w, 3 * w - 1)
  {
    pv := pv0;
    var x := w - 1;
    ghost var n := 2 * w;
    while x > 0
      invariant 0 <= x <= w - 1 && n + x == 3 * w - 1
      invariant pv == Rim(verts, w, n)
    {
      RimPointOnFarEdge(w, x);
      pv := ExtendRim(pv, verts, w, n, x, w - 1);
      x := x - 1;
      n := n + 1;
    }
  }

  /** Fourth edge walk: along x = 0 with z falling to 1, rim samples 3w-1 .. 4w-3. */
  method WalkLeftEdge(pv0: seq<real>, verts: seq<real>, w: nat) returns (pv: seq<real>)
    requires w >= 1 && |verts| == 3 * w * w
    requires pv0 == Rim(verts, w, 3 * w - 1)
    ensures pv == Rim(verts, w, RimLength(w))
  {
    pv := pv0;
    var z := w - 1;
    ghost var n := 3 * w - 1;
    while z > 0
      invariant 0 <= z <= w - 1 && n + z == RimLength(w)
      invariant pv == Rim(verts, w, n)
    {
      RimPointOnLeftEdge(w, z);
      pv := ExtendRim(pv, verts, w, n, 0, z);
      z := z - 1;
      n := n + 1;
    }
  }

  /**
   * The four edge walks.  The result holds 12*(4w-2) floats, and floats
   * 12k .. 12k+11 are the rim sample of the k-th rim point.
   */
  method BuildRimVertices(verts: seq<real>, w: nat) returns (pv: seq<real>)
    requires w >= 1 && |verts| == 3 * w * w
    ensures |pv| == 12 * RimLength(w)
    ensures forall k, j :: 0 <= k < RimLength(w) && 0 <= j < 12 ==>
              pv[12 * k + j] == RimSample(verts, w, RimPoint(w, k).0, RimPoint(w, k).1)[j]
  {
    pv := WalkNearEdge(verts, w);
    pv := WalkRightEdge(pv, verts, w);
    pv := WalkFarEdge(pv, verts, w);
    pv := WalkLeftEdge(pv, verts, w);
    RimLayoutAll(verts, w, pv);
  }

  // ---------------------------------------------------------------------
  // Wall triangles
  // ---------------------------------------------------------------------

  /**
   * The quad between rim sample i and the next one (sample 0 after the
   * last): vertex 2k is the bottom and 2k+1 the top of sample k; triangles
   * (bottom i, top i, top next) and (bottom i, top next, bottom next).
   */
  function WallIndices(n: nat, i: nat): seq<nat>
    requires i < n
  {
    var next := (i + 1) % n;
    [2 * i, 2 * i + 1, 2 * next + 1, 2 * i, 2 * next + 1, 2 * next]
  }

  /** The last quad closes the wall: it joins the last sample to sample 0. */
  lemma WallCloses(n: nat)
    requires n >= 1
    ensures WallIndices(n, n - 1) == [2 * n - 2, 2 * n - 1, 1, 2 * n - 2, 1, 0]
  {
    assert n % n == 0;
  }

  lemma ModBelowTwice(a: nat, m: nat)
    requires 0 < m && a < 2 * m
    ensures a % m == if a < m then a else a - m
  {
    if a >= m {
      assert a == (a - m) + m;
    }
  }

  /**
   * The six indices the loop emits in iteration i name vertices below m, and
   * when m is exactly two vertices per sample they are the quad of sample i.
   */
  lemma WallStep(n: nat, m: nat, i: nat, whole: bool)
    requires i < n && 2 * n <= m
    requires whole ==> m == 2 * n
    ensures var emitted := [i * 2, (i * 2 + 1) % m, (i * 2 + 3) % m, i * 2, (i * 2 + 3) % m, (i * 2 + 2) % m];
      (forall j :: 0 <= j < 6 ==> emitted[j] < m) &&
      (whole ==> emitted == WallIndices(n, i))
  {
    if whole {
      ModBelowTwice(i * 2 + 1, m);
      ModBelowTwice(i * 2 + 2, m);
      ModBelowTwice(i * 2 + 3, m);
      ModBelowTwice(i + 1, n);
    }
  }

  /**
   * The wall index loop over a platform buffer of `size` floats: size/12
   * iterations of six indices, with every neighbour index taken modulo the
   * vertex count size/6.  Every index names one of the size/6 vertices, and
   * for a buffer of whole rim samples each iteration emits the quad of
   * WallIndices.
   */
  method BuildRimIndices(size: nat) returns (indices: seq<nat>)
    ensures |indices| == 6 * (size / 12)
    ensures forall j :: 0 <= j < |indices| ==> indices[j] < size / 6
    ensures size % 12 == 0 ==> forall i, j :: 0 <= i < size / 12 && 0 <= j < 6 ==>
              indices[6 * i + j] == WallIndices(size / 12, i)[j]
  {
    var n := size / 12;
    var m := size / 6;
    indices := [];
    var i := 0;
    while i < n
      invariant 0 <= i <= n
      invariant |indices| == 6 * i
      invariant forall j :: 0 <= j < |indices| ==> indices[j] < m
      invariant size % 12 == 0 ==> forall i', j :: 0 <= i' < i && 0 <= j < 6 ==>
                  indices[6 * i' + j] == WallIndices(n, i')[j]
    {
      WallStep(n, m, i, size % 12 == 0);
      indices := indices + [i * 2, (i * 2 + 1) % m, (i * 2 + 3) % m];
      indices := indices + [i * 2, (i * 2 + 3) % m, (i * 2 + 2) % m];
      i := i + 1;
    }
  }

  // ---------------------------------------------------------------------
  // The whole mesh construction
  // ---------------------------------------------------------------------

  /**
   * The terrain and platform construction at the demo's width of 64: grid
   * vertices, grid triangles, smoothing, rim vertices from the smoothed
   * terrain, and rim triangles.  Every terrain index names a terrain point,
   * every platform index a platform vertex; smoothing keeps every point's x
   * and z, and keeps the heights inside [0, 1] when the sampled heights are.
   */
  method BuildTerrainAndPlatform(sample: (nat, nat) -> Vec3)
    returns (terrainVertices: seq<real>, terrainIndices: seq<nat>,
             platformVertices: seq<real>, platformIndices: seq<nat>)
    ensures |terrainVertices| == 3 * TerrainWidth * TerrainWidth
    ensures exists raw :: SampledGrid(raw, TerrainWidth, sample) && SmoothingOf(terrainVertices, raw, TerrainWidth)
    ensures |terrainIndices| == 6 * (TerrainWidth - 1) * (TerrainWidth - 1)
    ensures forall x: nat, z: nat :: x < TerrainWidth - 1 && z < TerrainWidth - 1 ==> CellAt(terrainIndices, TerrainWidth, x, z)
    ensures forall j :: 0 <= j < |terrainIndices| ==> terrainIndices[j] < |terrainVertices| / 3
    ensures forall x: nat, z: nat :: InGrid(TerrainWidth, x, z) ==>
              3 * PointIndex(TerrainWidth, x, z) + 2 < |terrainVertices| &&
              terrainVertices[3 * PointIndex(TerrainWidth, x, z)] == sample(x, z).x &&
              terrainVertices[3 * PointIndex(TerrainWidth, x, z) + 2] == sample(x, z).z
    ensures (forall x: nat, z: nat :: InGrid(TerrainWidth, x, z) ==> 0.0 <= sample(x, z).y <= 1.0) ==>
              HeightsWithin(terrainVertices, TerrainWidth, 0.0, 1.0)
    ensures |platformVertices| == 12 * RimLength(TerrainWidth)
    ensures forall k, j :: 0 <= k < RimLength(TerrainWidth) && 0 <= j < 12 ==>
              platformVertices[12 * k + j] ==
                RimSample(terrainVertices, TerrainWidth, RimPoint(TerrainWidth, k).0, RimPoint(TerrainWidth, k).1)[j]
    ensures |platformIndices| == 6 * RimLength(TerrainWidth)
    ensures forall j :: 0 <= j < |platformIndices| ==> platformIndices[j] < |platformVertices| / 6
    ensures forall i, j :: 0 <= i < RimLength(TerrainWidth) && 0 <= j < 6 ==>
              platformIndices[6 * i + j] == WallIndices(RimLength(TerrainWidth), i)[j]
  {
    var w := TerrainWidth;
    var raw := BuildVertices(w, sample);
    terrainIndices := BuildIndices(w);
    terrainVertices := Smooth(raw, w);
    platformVertices := BuildRimVertices(terrainVertices, w);
    platformIndices := BuildRimIndices(|platformVertices|);
    assert SampledGrid(raw, w, sample);
    assert SmoothingOf(terrainVertices, raw, w);

    forall x: nat, z: nat | InGrid(w, x, z)
      ensures 3 * PointIndex(w, x, z) + 2 < |terrainVertices|
      ensures terrainVertices[3 * PointIndex(w, x, z)] == sample(x, z).x
      ensures terrainVertices[3 * PointIndex(w, x, z) + 2] == sample(x, z).z
    {
      PointIndexInRange(w, x, z);
    }
    if forall x: nat, z: nat :: InGrid(w, x, z) ==> 0.0 <= sample(x, z).y <= 1.0 {
      assert HeightsWithin(raw, w, 0.0, 1.0) by {
        forall x: nat, z: nat | InGrid(w, x, z)
          ensures 0.0 <= HeightAt(raw, w, x, z) <= 1.0
        {
          assert VertexAt(raw, PointIndex(w, x, z)) == sample(x, z);
        }
      }
      SmoothedWithin(raw, terrainVertices, w, 0.0, 1.0);
    }
  }
}
