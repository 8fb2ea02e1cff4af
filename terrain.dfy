/**
 * The terrain mesh of the Christmas-room scene: a square grid of sampled
 * points stored three floats per point in row-major order, two triangles per
 * grid cell, and a 3x3 box filter that smooths the height of every point.
 *
 * The disc mapping (square root) and the Perlin height of each point are
 * library floating-point numerics; the model receives them as an opaque
 * `sample` function from grid coordinates to a point.  Floats are `real`.
 */
module Terrain {

  /** Width of the demo's terrain grid, in points per side. */
  const TerrainWidth: nat := 64

  /** A point of the terrain: the disc-mapped x and z and the height y. */
  datatype Vec3 = Vec3(x: real, y: real, z: real)

  /** Position of the first point of row z: z rows of w points each. */
  function RowStart(w: nat, z: nat): nat
  {
    if z == 0 then 0 else RowStart(w, z - 1) + w
  }

  /** Position of grid point (x, z) in the row-major point order. */
  function PointIndex(w: nat, x: nat, z: nat): nat
  {
    RowStart(w, z) + x
  }

  /** z rows of w points hold z*w points. */
  lemma {:induction false} RowStartIsProduct(w: nat, z: nat)
    ensures RowStart(w, z) == z * w
  {
    if z > 0 {
      RowStartIsProduct(w, z - 1);
      assert (z - 1) * w + w == z * w;
    }
  }

  /** A later row starts at least a whole row further on. */
  lemma {:induction false} RowStartMonotone(w: nat, z1: nat, z2: nat)
    requires z1 < z2
    ensures RowStart(w, z1) + w <= RowStart(w, z2)
  {
    if z1 + 1 < z2 {
      RowStartMonotone(w, z1, z2 - 1);
    }
  }

  /** The source's offset arithmetic z*w + x computes the row-major position. */
  function RowMajor(w: nat, x: nat, z: nat): (r: nat)
    ensures r == PointIndex(w, x, z)
  {
    RowStartIsProduct(w, z);
    z * w + x
  }

  /** True when (nx, nz) names a point of a w-by-w grid. */
  predicate InGrid(w: nat, nx: int, nz: int)
  {
    0 <= nx < w && 0 <= nz < w
  }

  /** The point stored at point position i of a flat x,y,z float buffer. */
  function VertexAt(verts: seq<real>, i: nat): Vec3
    requires 3 * i + 2 < |verts|
  {
    Vec3(verts[3 * i], verts[3 * i + 1], verts[3 * i + 2])
  }

  /** Row-major order is strict: a point earlier in the scan has a smaller position. */
  lemma RowMajorOrder(w: nat, x1: nat, z1: nat, x2: nat, z2: nat)
    requires x1 < w && x2 <= w
    requires z1 < z2 || (z1 == z2 && x1 < x2)
    ensures PointIndex(w, x1, z1) < PointIndex(w, x2, z2)
  {
    if z1 < z2 {
      RowStartMonotone(w, z1, z2);
    }
  }

  /** Every grid point has a position inside the w*w points of the buffer. */
  lemma PointIndexInRange(w: nat, x: nat, z: nat)
    requires InGrid(w, x, z)
    ensures PointIndex(w, x, z) < w * w
    ensures 3 * PointIndex(w, x, z) + 2 < 3 * w * w
  {
    RowMajorOrder(w, x, z, 0, w);
    RowStartIsProduct(w, w);
  }

  // ---------------------------------------------------------------------
  // Grid vertices
  // ---------------------------------------------------------------------

  /**
   * The vertex loop: for every row z and column x, push the three
   * coordinates of the sampled point.  The buffer holds exactly 3*w*w floats
   * and point (x, z) sits at float offset 3*(z*w + x).
   */
  method BuildVertices(w: nat, sample: (nat, nat) -> Vec3) returns (verts: seq<real>)
    ensures |verts| == 3 * w * w
    ensures forall x: nat, z: nat :: InGrid(w, x, z) ==>
              3 * PointIndex(w, x, z) + 2 < |verts| &&
              VertexAt(verts, PointIndex(w, x, z)) == sample(x, z)
  {
    verts := [];
    var z := 0;
    while z < w
      invariant 0 <= z <= w
      invariant |verts| == 3 * RowStart(w, z)
      invariant forall x': nat, z': nat :: x' < w && z' < z ==>
                  3 * PointIndex(w, x', z') + 2 < |verts| &&
                  VertexAt(verts, PointIndex(w, x', z')) == sample(x', z')
    {
      var x := 0;
      while x < w
        invariant 0 <= x <= w
        invariant |verts| == 3 * (RowStart(w, z) + x)
        invariant forall x': nat, z': nat :: x' < w && z' < z ==>
                    3 * PointIndex(w, x', z') + 2 < |verts| &&
                    VertexAt(verts, PointIndex(w, x', z')) == sample(x', z')
        invariant forall x': nat :: x' < x ==>
                    3 * PointIndex(w, x', z) + 2 < |verts| &&
                    VertexAt(verts, PointIndex(w, x', z)) == sample(x', z)
      {
        var p := sample(x, z);
        ghost var before := verts;
        verts := verts + [p.x];
        verts := verts + [p.y];
        verts := verts + [p.z];
        assert verts == before + [p.x, p.y, p.z];
        x := x + 1;
      }
      z := z + 1;
    }
    RowStartIsProduct(w, w);
  }

  // ---------------------------------------------------------------------
  // Grid triangles
  // ---------------------------------------------------------------------

  /**
   * The six indices emitted for cell (x, z): triangles
   * (topLeft, bottomLeft, topRight) and (topRight, bottomLeft, bottomRight).
   */
  function CellIndices(w: nat, x: nat, z: nat): seq<nat>
  {
    var topLeft := PointIndex(w, x, z);
    var topRight := topLeft + 1;
    var bottomLeft := topLeft + w;
    var bottomRight := bottomLeft + 1;
    [topLeft, bottomLeft, topRight, topRight, bottomLeft, bottomRight]
  }

  /**
   * The corners of a cell are the grid points (x, z), (x+1, z), (x, z+1) and
   * (x+1, z+1), all inside the grid; so every index of the cell names a point.
   */
  lemma {:induction false} CellCorners(w: nat, x: nat, z: nat)
    requires x + 1 < w && z + 1 < w
    ensures |CellIndices(w, x, z)| == 6
    ensures CellIndices(w, x, z)[0] == PointIndex(w, x, z)
    ensures CellIndices(w, x, z)[2] == PointIndex(w, x + 1, z)
    ensures CellIndices(w, x, z)[1] == PointIndex(w, x, z + 1)
    ensures CellIndices(w, x, z)[3] == PointIndex(w, x + 1, z)
    ensures CellIndices(w, x, z)[4] == PointIndex(w, x, z + 1)
    ensures CellIndices(w, x, z)[5] == PointIndex(w, x + 1, z + 1)
    ensures forall j :: 0 <= j < 6 ==> CellIndices(w, x, z)[j] < w * w
  {
    assert PointIndex(w, x, z + 1) == PointIndex(w, x, z) + w;
    assert PointIndex(w, x + 1, z + 1) == PointIndex(w, x, z) + w + 1;
    PointIndexInRange(w, x + 1, z + 1);
  }

  /**
   * Cell (x, z) of a w-wide grid has its six indices at entries
   * 6*(z*(w-1)+x) .. +6 of the index list: cells are numbered row-major over
   * the (w-1)-by-(w-1) cells.
   */
  ghost predicate CellAt(indices: seq<nat>, w: nat, x: nat, z: nat)
    requires w >= 1
  {
    var at := 6 * PointIndex(w - 1, x, z);
    at + 6 <= |indices| &&
    forall j :: 0 <= j < 6 ==> indices[at + j] == CellIndices(w, x, z)[j]
  }

  lemma CellAtAppend(before: seq<nat>, more: seq<nat>, w: nat, x: nat, z: nat)
    requires w >= 1 && CellAt(before, w, x, z)
    ensures CellAt(before + more, w, x, z)
  {
    var at := 6 * PointIndex(w - 1, x, z);
    forall j | 0 <= j < 6
      ensures (before + more)[at + j] == CellIndices(w, x, z)[j]
    {
      assert (before + more)[at + j] == before[at + j];
    }
  }

  /** Emitting cell (x, z) after all earlier cells keeps every earlier cell in place and adds this one. */
  lemma AppendCell(before: seq<nat>, w: nat, x: nat, z: nat)
    requires x + 1 < w && z + 1 < w
    requires |before| == 6 * PointIndex(w - 1, x, z)
    requires forall x': nat, z': nat :: x' < w - 1 && z' < z ==> CellAt(before, w, x', z')
    requires forall x': nat :: x' < x ==> CellAt(before, w, x', z)
    requires forall j :: 0 <= j < |before| ==> before[j] < w * w
    ensures forall x': nat, z': nat :: x' < w - 1 && z' < z ==> CellAt(before + CellIndices(w, x, z), w, x', z')
    ensures forall x': nat :: x' <= x ==> CellAt(before + CellIndices(w, x, z), w, x', z)
    ensures forall j :: 0 <= j < |before| + 6 ==> (before + CellIndices(w, x, z))[j] < w * w
  {
    var cell := CellIndices(w, x, z);
    CellCorners(w, x, z);
    forall x': nat, z': nat | x' < w - 1 && z' < z
      ensures CellAt(before + cell, w, x', z')
    {
      CellAtAppend(before, cell, w, x', z');
    }
    forall x': nat | x' < x
      ensures CellAt(before + cell, w, x', z)
    {
      CellAtAppend(before, cell, w, x', z);
    }
    assert CellAt(before + cell, w, x, z) by {
      forall j | 0 <= j < 6
        ensures (before + cell)[|before| + j] == cell[j]
      {
      }
    }
  }

  /**
   * The index loop: one cell per (x, z) with x, z < w-1, row by row, six
   * indices each.  The list has 6*(w-1)^2 entries, each cell's six indices
   * are its two triangles, and every index is below w*w.
   */
  method BuildIndices(w: nat) returns (indices: seq<nat>)
    requires w >= 1
    ensures |indices| == 6 * (w - 1) * (w - 1)
    ensures forall x: nat, z: nat :: x < w - 1 && z < w - 1 ==> CellAt(indices, w, x, z)
    ensures forall j :: 0 <= j < |indices| ==> indices[j] < w * w
  {
    var cells := w - 1;
    indices := [];
    var z := 0;
    while z < cells
      invariant 0 <= z <= cells
      invariant |indices| == 6 * RowStart(cells, z)
      invariant forall x': nat, z': nat :: x' < cells && z' < z ==> CellAt(indices, w, x', z')
      invariant forall j :: 0 <= j < |indices| ==> indices[j] < w * w
    {
      var x := 0;
      while x < cells
        invariant 0 <= x <= cells
        invariant |indices| == 6 * (RowStart(cells, z) + x)
        invariant forall x': nat, z': nat :: x' < cells && z' < z ==> CellAt(indices, w, x', z')
        invariant forall x': nat :: x' < x ==> CellAt(indices, w, x', z)
        invariant forall j :: 0 <= j < |indices| ==> indices[j] < w * w
      {
        var topLeft := RowMajor(w, x, z);
        var topRight := topLeft + 1;
        var bottomLeft := topLeft + w;
        var bottomRight := bottomLeft + 1;
        ghost var before := indices;
        indices := indices + [topLeft, bottomLeft, topRight];
        indices := indices + [topRight, bottomLeft, bottomRight];
        assert indices == before + CellIndices(w, x, z);
        AppendCell(before, w, x, z);
        x := x + 1;
      }
      z := z + 1;
    }
    RowStartIsProduct(cells, cells);
    assert 6 * (cells * cells) == 6 * (w - 1) * (w - 1);
  }

  // ---------------------------------------------------------------------
  // Box-filter smoothing of the height slot
  // ---------------------------------------------------------------------

  /** The k-th neighbour offset in the filter's scan order: dz outer, dx inner, each -1..1. */
  function OffsetZ(k: nat): int { if k < 3 then -1 else if k < 6 then 0 else 1 }
  function OffsetX(k: nat): int { k - 3 * (OffsetZ(k) + 1) - 1 }

  /** The scan position of offset (dz, dx) decodes back to that offset. */
  lemma ScanOffset(dz: int, dx: int)
    requires -1 <= dz <= 1 && -1 <= dx <= 1
    ensures OffsetX(3 * (dz + 1) + (dx + 1)) == dx && OffsetZ(3 * (dz + 1) + (dx + 1)) == dz
  {
    if dz == -1 {
      if dx == -1 {} else if dx == 0 {} else {}
    } else if dz == 0 {
      if dx == -1 {} else if dx == 0 {} else {}
    } else {
      if dx == -1 {} else if dx == 0 {} else {}
    }
  }

  /** One step of the scan: the window grows by the neighbour at the k-th offset when it is in the grid. */
  lemma WindowScanStep(verts: seq<real>, w: nat, x: nat, z: nat, k: nat, nx: int, nz: int)
    requires |verts| == 3 * w * w
    requires nx == x + OffsetX(k) && nz == z + OffsetZ(k)
    ensures InGrid(w, nx, nz) ==>
              3 * PointIndex(w, nx, nz) + 1 < |verts| &&
              WindowCount(w, x, z, k + 1) == WindowCount(w, x, z, k) + 1 &&
              WindowSum(verts, w, x, z, k + 1) == WindowSum(verts, w, x, z, k) + verts[3 * PointIndex(w, nx, nz) + 1]
    ensures !InGrid(w, nx, nz) ==>
              WindowCount(w, x, z, k + 1) == WindowCount(w, x, z, k) &&
              WindowSum(verts, w, x, z, k + 1) == WindowSum(verts, w, x, z, k)
  {
    if InGrid(w, nx, nz) {
      PointIndexInRange(w, nx, nz);
    }
  }

  /** Number of in-grid neighbours among the first k offsets around (x, z). */
  function WindowCount(w: nat, x: nat, z: nat, k: nat): nat
  {
    if k == 0 then 0
    else WindowCount(w, x, z, k - 1) + (if InGrid(w, x + OffsetX(k - 1), z + OffsetZ(k - 1)) then 1 else 0)
  }

  /** Sum of the unsmoothed heights of the in-grid neighbours among the first k offsets. */
  function WindowSum(verts: seq<real>, w: nat, x: nat, z: nat, k: nat): real
    requires |verts| == 3 * w * w
  {
    if k == 0 then 0.0
    else
      var nx := x + OffsetX(k - 1);
      var nz := z + OffsetZ(k - 1);
      WindowSum(verts, w, x, z, k - 1) +
        (if InGrid(w, nx, nz) then HeightAt(verts, w, nx, nz) else 0.0)
  }

  /** The height (y slot) of grid point (x, z). */
  function HeightAt(verts: seq<real>, w: nat, x: nat, z: nat): real
    requires |verts| == 3 * w * w && InGrid(w, x, z)
  {
    PointIndexInRange(w, x, z);
    verts[3 * PointIndex(w, x, z) + 1]
  }

  /** Number of values of n - 1, n, n + 1 that lie in 0..w-1. */
  function AxisNeighbours(w: nat, n: nat): nat
  {
    (if n > 0 then 1 else 0) + (if n < w then 1 else 0) + (if n + 1 < w then 1 else 0)
  }

  /**
   * The filter's neighbour count at (x, z) is the product of the in-range
   * neighbours along each axis; at least one (the point itself).
   */
  lemma {:induction false} WindowCountIsProduct(w: nat, x: nat, z: nat)
    requires InGrid(w, x, z)
    ensures WindowCount(w, x, z, 9) == AxisNeighbours(w, x) * AxisNeighbours(w, z)
    ensures WindowCount(w, x, z, 9) >= 1
  {
    var ax := AxisNeighbours(w, x);
    var rowBelow := if z > 0 then ax else 0;
    var rowAbove := if z + 1 < w then ax else 0;
    assert OffsetX(0) == -1 && OffsetX(1) == 0 && OffsetX(2) == 1;
    assert OffsetX(3) == -1 && OffsetX(4) == 0 && OffsetX(5) == 1;
    assert OffsetX(6) == -1 && OffsetX(7) == 0 && OffsetX(8) == 1;
    assert OffsetZ(0) == -1 && OffsetZ(1) == -1 && OffsetZ(2) == -1;
    assert OffsetZ(3) == 0 && OffsetZ(4) == 0 && OffsetZ(5) == 0;
    assert OffsetZ(6) == 1 && OffsetZ(7) == 1 && OffsetZ(8) == 1;
    var below := if z > 0 then 1 else 0;
    assert WindowCount(w, x, z, 1) == (if x > 0 then below else 0);
    assert WindowCount(w, x, z, 2) == (if x > 0 then below else 0) + below;
    assert WindowCount(w, x, z, 3) == rowBelow;
    assert WindowCount(w, x, z, 4) == rowBelow + (if x > 0 then 1 else 0);
    assert WindowCount(w, x, z, 5) == rowBelow + (if x > 0 then 1 else 0) + 1;
    assert WindowCount(w, x, z, 6) == rowBelow + ax;
    var above := if z + 1 < w then 1 else 0;
    assert WindowCount(w, x, z, 7) == rowBelow + ax + (if x > 0 then above else 0);
    assert WindowCount(w, x, z, 8) == rowBelow + ax + (if x > 0 then above else 0) + above;
    assert WindowCount(w, x, z, 9) == rowBelow + ax + rowAbove;
  }

  /** The point itself is always counted, so the filter never divides by zero. */
  lemma WindowCountPositive(w: nat, x: nat, z: nat)
    requires InGrid(w, x, z)
    ensures WindowCount(w, x, z, 9) >= 1
  {
    WindowCountIsProduct(w, x, z);
  }

  /** The neighbour count is 4 at a corner, 6 on an edge and 9 in the interior. */
  lemma NeighbourCountByPosition(w: nat, x: nat, z: nat)
    requires w >= 2 && InGrid(w, x, z)
    ensures (x == 0 || x == w - 1) && (z == 0 || z == w - 1) ==> WindowCount(w, x, z, 9) == 4
    ensures (0 < x < w - 1) != (0 < z < w - 1) ==> WindowCount(w, x, z, 9) == 6
    ensures 0 < x < w - 1 && 0 < z < w - 1 ==> WindowCount(w, x, z, 9) == 9
  {
    WindowCountIsProduct(w, x, z);
  }

  /** The smoothed height of (x, z): mean of the in-grid 3x3 neighbourhood of the unsmoothed heights. */
  function WindowMean(verts: seq<real>, w: nat, x: nat, z: nat): real
    requires |verts| == 3 * w * w && InGrid(w, x, z)
  {
    WindowCountPositive(w, x, z);
    WindowSum(verts, w, x, z, 9) / (WindowCount(w, x, z, 9) as real)
  }

  /**
   * The 3x3 neighbour scan around (x, z): visits the offsets dz, dx in
   * -1..1, adds the unsmoothed height of every neighbour inside the grid and
   * counts it, then divides.  The count is never zero, since (x, z) itself is
   * always counted, and every neighbour read is inside the buffer.
   */
  method WindowAverage(verts: seq<real>, w: nat, x: nat, z: nat) returns (mean: real)
    requires |verts| == 3 * w * w && InGrid(w, x, z)
    ensures mean == WindowMean(verts, w, x, z)
  {
    var sum := 0.0;
    var count := 0;
    ghost var k := 0;
    var dz := -1;
    while dz <= 1
      invariant -1 <= dz <= 2 && k == 3 * (dz + 1)
      invariant sum == WindowSum(verts, w, x, z, k)
      invariant count == WindowCount(w, x, z, k)
    {
      var dx := -1;
      while dx <= 1
        invariant -1 <= dx <= 2 && k == 3 * (dz + 1) + (dx + 1)
        invariant sum == WindowSum(verts, w, x, z, k)
        invariant count == WindowCount(w, x, z, k)
      {
        var nx := x + dx;
        var nz := z + dz;
        ScanOffset(dz, dx);
        WindowScanStep(verts, w, x, z, k, nx, nz);
        k := k + 1;
        if nx >= 0 && nx < w && nz >= 0 && nz < w {
          var neighborIndex := RowMajor(w, nx, nz);
          sum := sum + verts[neighborIndex * 3 + 1];
          count := count + 1;
        }
        dx := dx + 1;
      }
      dz := dz + 1;
    }
    WindowCountPositive(w, x, z);
    mean := sum / count as real;
  }

  /**
   * The smoothing block: the mean of each point's window is computed from the
   * unsmoothed buffer into a temporary array of w*w heights, then copied into
   * the y slots.  The x and z slots are untouched.
   */
  method Smooth(verts: seq<real>, w: nat) returns (smoothed: seq<real>)
    requires |verts| == 3 * w * w
    ensures |smoothed| == |verts|
    ensures forall i :: 0 <= i < w * w ==> smoothed[3 * i] == verts[3 * i] && smoothed[3 * i + 2] == verts[3 * i + 2]
    ensures forall x: nat, z: nat :: InGrid(w, x, z) ==>
              3 * PointIndex(w, x, z) + 1 < |smoothed| &&
              smoothed[3 * PointIndex(w, x, z) + 1] == WindowMean(verts, w, x, z)
  {
    var tmp := new real[|verts| / 3](_ => 0.0);
    assert tmp.Length == w * w;
    RowStartIsProduct(w, w);
    var z := 0;
    while z < w
      invariant 0 <= z <= w
      invariant forall x': nat, z': nat :: x' < w && z' < z ==>
                  PointIndex(w, x', z') < tmp.Length &&
                  tmp[PointIndex(w, x', z')] == WindowMean(verts, w, x', z')
    {
      var x := 0;
      while x < w
        invariant 0 <= x <= w
        invariant forall x': nat, z': nat :: x' < w && z' < z ==>
                    PointIndex(w, x', z') < tmp.Length &&
                    tmp[PointIndex(w, x', z')] == WindowMean(verts, w, x', z')
        invariant forall x': nat :: x' < x ==>
                    PointIndex(w, x', z) < tmp.Length &&
                    tmp[PointIndex(w, x', z)] == WindowMean(verts, w, x', z)
      {
        var mean := WindowAverage(verts, w, x, z);
        PointIndexInRange(w, x, z);
        forall x': nat, z': nat | x' < w && z' < z
          ensures PointIndex(w, x', z') != PointIndex(w, x, z)
        {
          RowMajorOrder(w, x', z', x, z);
        }
        forall x': nat | x' < x
          ensures PointIndex(w, x', z) != PointIndex(w, x, z)
        {
          RowMajorOrder(w, x', z, x, z);
        }
        tmp[RowMajor(w, x, z)] := mean;
        x := x + 1;
      }
      z := z + 1;
    }

    smoothed := verts;
    var i := 0;
    while i < tmp.Length
      invariant 0 <= i <= tmp.Length
      invariant |smoothed| == |verts|
      invariant forall i' :: 0 <= i' < tmp.Length ==> smoothed[3 * i'] == verts[3 * i'] && smoothed[3 * i' + 2] == verts[3 * i' + 2]
      invariant forall i' :: 0 <= i' < i ==> smoothed[3 * i' + 1] == tmp[i']
    {
      smoothed := smoothed[i * 3 + 1 := tmp[i]];
      i := i + 1;
    }
    forall x: nat, z: nat | InGrid(w, x, z)
      ensures 3 * PointIndex(w, x, z) + 1 < |smoothed|
      ensures smoothed[3 * PointIndex(w, x, z) + 1] == WindowMean(verts, w, x, z)
    {
      PointIndexInRange(w, x, z);
    }
  }

  /** v added to itself c times; keeps the bound reasoning below linear. */
  function Scaled(c: nat, v: real): real
  {
    if c == 0 then 0.0 else Scaled(c - 1, v) + v
  }

  lemma {:induction false} ScaledIsProduct(c: nat, v: real)
    ensures Scaled(c, v) == (c as real) * v
  {
    if c > 0 {
      ScaledIsProduct(c - 1, v);
      assert ((c - 1) as real) * v + v == (c as real) * v;
    }
  }

  /** The window sum lies between count*lo and count*hi when every height does. */
  lemma {:induction false} WindowSumBounds(verts: seq<real>, w: nat, x: nat, z: nat, k: nat, lo: real, hi: real)
    requires |verts| == 3 * w * w
    requires HeightsWithin(verts, w, lo, hi)
    ensures Scaled(WindowCount(w, x, z, k), lo) <= WindowSum(verts, w, x, z, k) <= Scaled(WindowCount(w, x, z, k), hi)
  {
    if k > 0 {
      WindowSumBounds(verts, w, x, z, k - 1, lo, hi);
      var nx := x + OffsetX(k - 1);
      var nz := z + OffsetZ(k - 1);
      if InGrid(w, nx, nz) {
        assert lo <= HeightAt(verts, w, nx, nz) <= hi;
      }
    }
  }

  /**
   * Smoothing never leaves the range of the input heights: if every height
   * lies in [lo, hi], so does every smoothed height.  In particular a flat
   * terrain stays flat.
   */
  lemma SmoothingKeepsBounds(verts: seq<real>, w: nat, x: nat, z: nat, lo: real, hi: real)
    requires |verts| == 3 * w * w && InGrid(w, x, z)
    requires HeightsWithin(verts, w, lo, hi)
    ensures lo <= WindowMean(verts, w, x, z) <= hi
  {
    WindowCountPositive(w, x, z);
    var n := WindowCount(w, x, z, 9);
    WindowSumBounds(verts, w, x, z, 9, lo, hi);
    ScaledIsProduct(n, lo);
    ScaledIsProduct(n, hi);
    MeanBetween(WindowSum(verts, w, x, z, 9), n as real, lo, hi);
  }

  lemma MeanBetween(s: real, c: real, lo: real, hi: real)
    requires c > 0.0 && c * lo <= s <= c * hi
    ensures lo <= s / c <= hi
  {
  }

  /** Every height of the grid lies in [lo, hi]. */
  ghost predicate HeightsWithin(verts: seq<real>, w: nat, lo: real, hi: real)
    requires |verts| == 3 * w * w
  {
    forall x: nat, z: nat :: InGrid(w, x, z) ==> lo <= HeightAt(verts, w, x, z) <= hi
  }

  /** `verts` is the vertex buffer of the sampled grid: 3*w*w floats, point (x, z) holding sample(x, z). */
  ghost predicate SampledGrid(verts: seq<real>, w: nat, sample: (nat, nat) -> Vec3)
  {
    |verts| == 3 * w * w &&
    forall x: nat, z: nat :: InGrid(w, x, z) ==>
      3 * PointIndex(w, x, z) + 2 < |verts| && VertexAt(verts, PointIndex(w, x, z)) == sample(x, z)
  }

  /** `smoothed` is `raw` with every x and z kept and every height replaced by its window mean. */
  ghost predicate SmoothingOf(smoothed: seq<real>, raw: seq<real>, w: nat)
  {
    |raw| == 3 * w * w && |smoothed| == |raw| &&
    (forall i :: 0 <= i < w * w ==> smoothed[3 * i] == raw[3 * i] && smoothed[3 * i + 2] == raw[3 * i + 2]) &&
    forall x: nat, z: nat :: InGrid(w, x, z) ==>
      3 * PointIndex(w, x, z) + 1 < |smoothed| &&
      smoothed[3 * PointIndex(w, x, z) + 1] == WindowMean(raw, w, x, z)
  }

  /** A buffer whose heights are the window means of another keeps that buffer's height range. */
  lemma SmoothedWithin(verts: seq<real>, smoothed: seq<real>, w: nat, lo: real, hi: real)
    requires |verts| == 3 * w * w && |smoothed| == |verts|
    requires forall x: nat, z: nat :: InGrid(w, x, z) ==>
               3 * PointIndex(w, x, z) + 1 < |smoothed| &&
               smoothed[3 * PointIndex(w, x, z) + 1] == WindowMean(verts, w, x, z)
    requires HeightsWithin(verts, w, lo, hi)
    ensures HeightsWithin(smoothed, w, lo, hi)
  {
    forall x: nat, z: nat | InGrid(w, x, z)
      ensures lo <= HeightAt(smoothed, w, x, z) <= hi
    {
      SmoothingKeepsBounds(verts, w, x, z, lo, hi);
    }
  }
}
