/**
 * ProceduralTerrain (src/framework/systems/terrain/terrain_system.cpp): a
 * VERTEX_COUNT x VERTEX_COUNT grid of vertices whose heights come from a
 * height generator, triangulated as two triangles per grid square, and the
 * height lookup for a world position.
 *
 * The generator's noise is an input function from grid coordinates to a
 * height; a missing generator reads as height 0. The interpolation inside a
 * grid square (Math::barryCentric) is an input as well.
 */
module Terrain {
  import opened Common
  import Mesh

  const VERTEX_COUNT: nat := 6
  const SIZE: real := 6.0

  /** Grid squares per side. */
  const QUADS: nat := VERTEX_COUNT - 1

  /** Indices per grid square: two triangles. */
  const QUAD_INDICES: nat := 6

  const INDEX_COUNT: nat := QUAD_INDICES * QUADS * QUADS

  /** HeightsGenerator::generateHeight for a fixed seed. */
  type HeightField = (int, int) -> real

  /** The barycentric interpolation of a point inside a triangle of three
   *  (x, height, z) corners. */
  type Interpolation = (Vec3, Vec3, Vec3, Vec2) -> real

  function GetHeight(x: int, z: int, generator: Option<HeightField>): real
  {
    if generator.Some? then generator.value(x, z) else 0.0
  }

  /** The normal from the four neighbouring heights; the normalised vector
   *  is computed and dropped, so the unnormalised one is returned. */
  function CalculateNormal(x: int, z: int, generator: Option<HeightField>): Vec3
  {
    Vec3(GetHeight(x - 1, z, generator) - GetHeight(x + 1, z, generator), 2.0,
         GetHeight(x, z - 1, generator) - GetHeight(x, z + 1, generator))
  }

  function Negated(v: Vec3): Vec3
  {
    match v
    case Vec3(x, y, z) => Vec3(-x, -y, -z)
  }

  /** The vertex of grid row i (along z) and column j (along x): position,
   *  white colour, normal and texture coordinate, position and normal negated. */
  function GridVertex(i: nat, j: nat, generator: Option<HeightField>): Mesh.Vertex
  {
    Mesh.Vertex(
      Negated(Vec3(GridPosition(j), GetHeight(j, i, generator), GridPosition(i))),
      Vec3(1.0, 1.0, 1.0),
      Negated(CalculateNormal(j, i, generator)),
      Vec2(GridFraction(j), GridFraction(i)))
  }

  /** Entry p of the vertex buffer: the grid points in row-major order. */
  function BufferVertex(p: nat, generator: Option<HeightField>): Mesh.Vertex
  {
    GridVertex(p / VERTEX_COUNT, p % VERTEX_COUNT, generator)
  }

  /** How far along its side grid line k lies, from 0 to 1: k / (VERTEX_COUNT - 1). */
  function GridFraction(k: nat): real
  {
    k as real / 5.0
  }

  /** The distance of grid line k from the tile's origin: GridFraction(k) * SIZE. */
  function GridPosition(k: nat): real
  {
    k as real * 6.0 / 5.0
  }

  lemma GridSpacing(k: nat)
    ensures GridFraction(k) == k as real / QUADS as real
    ensures GridPosition(k) == GridFraction(k) * SIZE
    ensures k <= QUADS ==> 0.0 <= GridFraction(k) <= 1.0 && 0.0 <= GridPosition(k) <= SIZE
  {
  }

  /** The six indices of grid square (gz, gx): triangles top left, bottom
   *  left, top right and top right, bottom left, bottom right. */
  function QuadIndices(gz: nat, gx: nat): seq<nat>
  {
    var topLeft := gz * VERTEX_COUNT + gx;
    var topRight := topLeft + 1;
    var bottomLeft := (gz + 1) * VERTEX_COUNT + gx;
    var bottomRight := bottomLeft + 1;
    [topLeft, bottomLeft, topRight, topRight, bottomLeft, bottomRight]
  }

  /** Entry p of the index buffer: the grid squares in row-major order. */
  function GridIndex(p: nat): nat
    requires p < INDEX_COUNT
  {
    var q := p / QUAD_INDICES;
    QuadIndices(q / QUADS, q % QUADS)[p % QUAD_INDICES]
  }

  lemma GridIndexAt(gz: nat, gx: nat, c: nat)
    requires gz < QUADS && gx < QUADS && c < QUAD_INDICES
    ensures QUAD_INDICES * (gz * QUADS + gx) + c < INDEX_COUNT
    ensures GridIndex(QUAD_INDICES * (gz * QUADS + gx) + c) == QuadIndices(gz, gx)[c]
  {
    var q := gz * QUADS + gx;
    var p := QUAD_INDICES * q + c;
    assert p / QUAD_INDICES == q && p % QUAD_INDICES == c;
    assert q / QUADS == gz && q % QUADS == gx;
  }

  /** Every index names a vertex of the grid. */
  lemma GridIndexInRange(p: nat)
    requires p < INDEX_COUNT
    ensures GridIndex(p) < VERTEX_COUNT * VERTEX_COUNT
  {
    var q := p / QUAD_INDICES;
    assert q < QUADS * QUADS;
    assert q / QUADS < QUADS && q % QUADS < QUADS;
  }

  /** Every vertex of the grid is used by some triangle. */
  lemma GridCoversVertices(v: nat)
    requires v < VERTEX_COUNT * VERTEX_COUNT
    ensures exists p :: 0 <= p < INDEX_COUNT && GridIndex(p) == v
  {
    var row, col := v / VERTEX_COUNT, v % VERTEX_COUNT;
    var gz := if row < QUADS then row else QUADS - 1;
    var gx := if col < QUADS then col else QUADS - 1;
    var c := if row == gz && col == gx then 0 else if row == gz then 2 else if col == gx then 1 else 5;
    GridIndexAt(gz, gx, c);
    assert GridIndex(QUAD_INDICES * (gz * QUADS + gx) + c) == v;
  }

  /** Twice the signed area of the triangle of three grid vertices, in
   *  (column, row) coordinates. */
  function Orientation(a: nat, b: nat, c: nat): int
  {
    var ax, az, bx, bz, cx, cz := a % VERTEX_COUNT, a / VERTEX_COUNT, b % VERTEX_COUNT, b / VERTEX_COUNT,
                                  c % VERTEX_COUNT, c / VERTEX_COUNT;
    (bx - ax) * (cz - az) - (bz - az) * (cx - ax)
  }

  /** Both triangles of a grid square wind the same way, so every triangle of
   *  the terrain faces the same side, and the two share the diagonal from
   *  top right to bottom left. */
  lemma QuadWinding(gz: nat, gx: nat)
    requires gz < QUADS && gx < QUADS
    ensures var q := QuadIndices(gz, gx);
      Orientation(q[0], q[1], q[2]) == Orientation(q[3], q[4], q[5]) == -1 &&
      q[2] == q[3] && q[1] == q[4] &&
      {q[0], q[1], q[2], q[5]} == {gz * VERTEX_COUNT + gx, gz * VERTEX_COUNT + gx + 1,
                                   (gz + 1) * VERTEX_COUNT + gx, (gz + 1) * VERTEX_COUNT + gx + 1}
  {
    var tl := gz * VERTEX_COUNT + gx;
    var bl := (gz + 1) * VERTEX_COUNT + gx;
    assert tl % VERTEX_COUNT == gx && tl / VERTEX_COUNT == gz;
    assert (tl + 1) % VERTEX_COUNT == gx + 1 && (tl + 1) / VERTEX_COUNT == gz;
    assert bl % VERTEX_COUNT == gx && bl / VERTEX_COUNT == gz + 1;
    assert (bl + 1) % VERTEX_COUNT == gx + 1 && (bl + 1) / VERTEX_COUNT == gz + 1;
  }

  /** Without a generator the terrain is flat: every vertex at height 0 with
   *  the (negated) normal straight along y. */
  lemma FlatWithoutGenerator(i: nat, j: nat)
    ensures GridVertex(i, j, None).position.y == 0.0
    ensures GridVertex(i, j, None).normal == Negated(Vec3(0.0, 2.0, 0.0))
  {
  }

  /** The y component of every normal is 2, whatever the heights. */
  lemma NormalUpright(x: int, z: int, generator: Option<HeightField>)
    ensures CalculateNormal(x, z, generator).y == 2.0
    ensures generator.None? ==> CalculateNormal(x, z, generator) == Vec3(0.0, 2.0, 0.0)
  {
  }

  /** C's fmod: the remainder of a truncating division. */
  function FMod(a: real, b: real): real
    requires b != 0.0
  {
    var quotient := a / b;
    var truncated := if quotient >= 0.0 then quotient.Floor else -((-quotient).Floor);
    a - truncated as real * b
  }

  /** The heights of the first i rows, and of the first j columns of row i,
   *  are generated; the rest are still 0. heights is indexed [x][z]. */
  ghost predicate HeightsFilled(heights: seq<seq<real>>, generator: Option<HeightField>, i: nat, j: nat)
  {
    |heights| == VERTEX_COUNT &&
    (forall a :: 0 <= a < VERTEX_COUNT ==> |heights[a]| == VERTEX_COUNT) &&
    forall a, b :: 0 <= a < VERTEX_COUNT && 0 <= b < VERTEX_COUNT ==>
      heights[a][b] == if b < i || (b == i && a < j) then GetHeight(a, b, generator) else 0.0
  }

  /** Writing the height of column j in row i extends the filled part by one. */
  lemma HeightsStep(heights: seq<seq<real>>, generator: Option<HeightField>, i: nat, j: nat)
    requires i < VERTEX_COUNT && j < VERTEX_COUNT && HeightsFilled(heights, generator, i, j)
    ensures HeightsFilled(heights[j := heights[j][i := GetHeight(j, i, generator)]], generator, i, j + 1)
  {
    var next := heights[j := heights[j][i := GetHeight(j, i, generator)]];
    forall a, b | 0 <= a < VERTEX_COUNT && 0 <= b < VERTEX_COUNT
      ensures next[a][b] == if b < i || (b == i && a < j + 1) then GetHeight(a, b, generator) else 0.0
    {
      if a != j {
        assert next[a] == heights[a];
      } else if b != i {
        assert next[a][b] == heights[a][b];
      }
    }
  }

  /** A completed row is the same as the next row not yet begun. */
  lemma HeightsRowDone(heights: seq<seq<real>>, generator: Option<HeightField>, i: nat)
    requires HeightsFilled(heights, generator, i, VERTEX_COUNT)
    ensures HeightsFilled(heights, generator, i + 1, 0)
  {
  }

  class ProceduralTerrain {
    const x: real
    const z: real
    const generator: Option<HeightField>
    var heights: seq<seq<real>>
    var mesh: Mesh.Model

    ghost predicate Valid()
      reads this
    {
      HeightsFilled(heights, generator, VERTEX_COUNT, 0)
    }

    /** The constructor: the tile's world origin, a generator, and the mesh
     *  of the grid with the material pack attached. */
    constructor (gridX: int, gridZ: int, textures: Option<Handle>, heightGenerator: HeightField,
                 vertexBuffer: Handle, indexBuffer: Handle)
      ensures x == gridX as real * SIZE && z == gridZ as real * SIZE && generator == Some(heightGenerator)
      ensures Valid()
      ensures mesh.vertexCount == VERTEX_COUNT * VERTEX_COUNT && mesh.indexCount == INDEX_COUNT
      ensures mesh.hasIndexBuffer && (mesh.createdAttachment.Some? <==> textures.Some?)
    {
      x := gridX as real * SIZE;
      z := gridZ as real * SIZE;
      generator := Some(heightGenerator);
      heights := [];
      mesh := Mesh.Model(NullHandle, 0, false, NullHandle, 0, None, None, None);
      new;
      var model := GenerateTerrain(textures, vertexBuffer, indexBuffer);
      mesh := model;
    }

    /** generateTerrain: build the grid and hand it to the model. */
    method GenerateTerrain(textures: Option<Handle>, vertexBuffer: Handle, indexBuffer: Handle)
      returns (model: Mesh.Model)
      modifies this`heights
      ensures Valid()
      ensures model.vertexCount == VERTEX_COUNT * VERTEX_COUNT && model.indexCount == INDEX_COUNT
      ensures model.hasIndexBuffer && (model.createdAttachment.Some? <==> textures.Some?)
    {
      var vertices, indices := BuildGrid();
      var r := Mesh.CreateModel(vertices.Length, indices.Length, Mesh.WithPack(textures), vertexBuffer, indexBuffer);
      model := r.value;
    }

    /** The two loops of generateTerrain: heights and vertices row by row,
     *  then six indices per grid square. */
    method BuildGrid() returns (vertices: array<Mesh.Vertex>, indices: array<nat>)
      modifies this`heights
      ensures Valid() && fresh(vertices) && fresh(indices)
      ensures forall a, b :: 0 <= a < VERTEX_COUNT && 0 <= b < VERTEX_COUNT ==> heights[a][b] == GetHeight(a, b, generator)
      ensures vertices.Length == VERTEX_COUNT * VERTEX_COUNT
      ensures forall p :: 0 <= p < vertices.Length ==> vertices[p] == BufferVertex(p, generator)
      ensures indices.Length == INDEX_COUNT
      ensures forall p :: 0 <= p < indices.Length ==> indices[p] == GridIndex(p)
    {
      vertices := new Mesh.Vertex[VERTEX_COUNT * VERTEX_COUNT](_ => Mesh.BlankVertex);
      indices := new nat[INDEX_COUNT](_ => 0);
      FillVertices(vertices);
      FillIndices(indices);
    }

    /** The first loop of generateTerrain: the heights and the vertices, row
     *  by row, one vertex per grid point. */
    method FillVertices(vertices: array<Mesh.Vertex>)
      requires vertices.Length == VERTEX_COUNT * VERTEX_COUNT
      modifies this`heights, vertices
      ensures Valid()
      ensures forall a, b :: 0 <= a < VERTEX_COUNT && 0 <= b < VERTEX_COUNT ==> heights[a][b] == GetHeight(a, b, generator)
      ensures forall p :: 0 <= p < vertices.Length ==> vertices[p] == BufferVertex(p, generator)
    {
      heights := seq(VERTEX_COUNT, _ => seq(VERTEX_COUNT, _ => 0.0));
      var vertexPointer := 0;
      for i := 0 to VERTEX_COUNT
        invariant vertexPointer == i * VERTEX_COUNT
        invariant HeightsFilled(heights, generator, i, 0)
        invariant forall p :: 0 <= p < vertexPointer ==> vertices[p] == BufferVertex(p, generator)
      {
        for j := 0 to VERTEX_COUNT
          invariant vertexPointer == i * VERTEX_COUNT + j
          invariant HeightsFilled(heights, generator, i, j)
          invariant forall p :: 0 <= p < vertexPointer ==> vertices[p] == BufferVertex(p, generator)
        {
          PlaceVertex(vertices, i, j, vertexPointer);
          vertexPointer := vertexPointer + 1;
        }
        HeightsRowDone(heights, generator, i);
      }
    }

    /** The body of the inner loop: the height and the vertex of grid point
     *  (row i, column j). */
    method PlaceVertex(vertices: array<Mesh.Vertex>, i: nat, j: nat, vertexPointer: nat)
      requires vertices.Length == VERTEX_COUNT * VERTEX_COUNT
      requires i < VERTEX_COUNT && j < VERTEX_COUNT && vertexPointer == i * VERTEX_COUNT + j
      requires HeightsFilled(heights, generator, i, j)
      requires forall p :: 0 <= p < vertexPointer ==> vertices[p] == BufferVertex(p, generator)
      modifies this`heights, vertices
      ensures HeightsFilled(heights, generator, i, j + 1)
      ensures forall p :: 0 <= p <= vertexPointer ==> vertices[p] == BufferVertex(p, generator)
    {
      assert BufferVertex(vertexPointer, generator) == GridVertex(i, j, generator) by {
        assert vertexPointer / VERTEX_COUNT == i && vertexPointer % VERTEX_COUNT == j;
      }
      HeightsStep(heights, generator, i, j);
      heights := heights[j := heights[j][i := GetHeight(j, i, generator)]];
      vertices[vertexPointer] := GridVertex(i, j, generator);
    }

    /** getHeightOfTerrain: 0 off the tile; otherwise the interpolation over
     *  the grid square's lower or upper triangle. */
    function GetHeightOfTerrain(worldX: real, worldZ: real, barycentric: Interpolation): real
      reads this
      requires Valid()
    {
      var terrainX, terrainZ := worldX - x, worldZ - z;
      var gridSquareSize := SIZE / (|heights| - 1) as real;
      var gridX, gridZ := (terrainX / gridSquareSize).Floor, (terrainZ / gridSquareSize).Floor;
      if gridX >= |heights| - 1 || gridZ >= |heights| - 1 || gridX < 0 || gridZ < 0 then 0.0
      else
        var xCoord, zCoord := FMod(terrainX, gridSquareSize) / gridSquareSize, FMod(terrainZ, gridSquareSize) / gridSquareSize;
        if xCoord <= 1.0 - zCoord then
          barycentric(Vec3(0.0, heights[gridX][gridZ], 0.0), Vec3(1.0, heights[gridX + 1][gridZ], 0.0),
                      Vec3(0.0, heights[gridX][gridZ + 1], 1.0), Vec2(xCoord, zCoord))
        else
          barycentric(Vec3(1.0, heights[gridX + 1][gridZ], 0.0), Vec3(1.0, heights[gridX + 1][gridZ + 1], 1.0),
                      Vec3(0.0, heights[gridX][gridZ + 1], 1.0), Vec2(xCoord, zCoord))
    }

    /** Outside the tile's SIZE x SIZE square the lookup answers 0. */
    lemma HeightOffTile(worldX: real, worldZ: real, barycentric: Interpolation)
      requires Valid()
      requires !(0.0 <= worldX - x < SIZE && 0.0 <= worldZ - z < SIZE)
      ensures GetHeightOfTerrain(worldX, worldZ, barycentric) == 0.0
    {
      CellOf(worldX - x);
      CellOf(worldZ - z);
    }

    /** At grid point (gx, gz) the lookup interpolates with weights (0, 0)
     *  over the lower triangle of that grid square, whose corners carry the
     *  generated heights of the grid points. */
    lemma HeightAtGridPoint(gx: nat, gz: nat, barycentric: Interpolation)
      requires Valid() && gx < QUADS && gz < QUADS
      ensures GetHeightOfTerrain(x + GridPosition(gx), z + GridPosition(gz), barycentric) ==
              barycentric(Vec3(0.0, GetHeight(gx, gz, generator), 0.0), Vec3(1.0, GetHeight(gx + 1, gz, generator), 0.0),
                          Vec3(0.0, GetHeight(gx, gz + 1, generator), 1.0), Vec2(0.0, 0.0))
    {
      GridPointCell(gx);
      GridPointCell(gz);
    }
  }

  /** The grid square a tile-relative coordinate t falls in is inside the
   *  grid exactly when 0 <= t < SIZE. */
  lemma CellOf(t: real)
    ensures var cell := (t / (SIZE / (VERTEX_COUNT - 1) as real)).Floor;
      0 <= cell < VERTEX_COUNT - 1 <==> 0.0 <= t < SIZE
  {
    assert SIZE / (VERTEX_COUNT - 1) as real == 1.2;
    var cell := (t / 1.2).Floor;
    assert cell as real <= t / 1.2 < cell as real + 1.0;
  }

  /** Grid line k lies at the start of grid square k. */
  lemma GridPointCell(k: nat)
    requires k < QUADS
    ensures (GridPosition(k) / (SIZE / (VERTEX_COUNT - 1) as real)).Floor == k
    ensures FMod(GridPosition(k), SIZE / (VERTEX_COUNT - 1) as real) == 0.0
  {
    assert SIZE / (VERTEX_COUNT - 1) as real == 1.2;
    assert GridPosition(k) / 1.2 == k as real;
  }

  /** The second loop of generateTerrain: six indices per grid square, the
   *  squares in row-major order. */
  method FillIndices(indices: array<nat>)
    requires indices.Length == INDEX_COUNT
    modifies indices
    ensures forall p :: 0 <= p < indices.Length ==> indices[p] == GridIndex(p)
  {
    var pointer := 0;
    for gz := 0 to QUADS
      invariant pointer == QUAD_INDICES * gz * QUADS
      invariant forall p :: 0 <= p < pointer ==> indices[p] == GridIndex(p)
    {
      for gx := 0 to QUADS
        invariant pointer == QUAD_INDICES * (gz * QUADS + gx)
        invariant forall p :: 0 <= p < pointer ==> indices[p] == GridIndex(p)
      {
        EmitQuad(indices, pointer, gz, gx);
        pointer := pointer + QUAD_INDICES;
      }
    }
  }

  /** The six writes of the inner index loop for grid square (gz, gx). */
  method EmitQuad(indices: array<nat>, pointer: nat, gz: nat, gx: nat)
    requires gz < QUADS && gx < QUADS && pointer == QUAD_INDICES * (gz * QUADS + gx)
    requires indices.Length == INDEX_COUNT
    requires forall p :: 0 <= p < pointer ==> indices[p] == GridIndex(p)
    modifies indices
    ensures forall p :: 0 <= p < pointer + QUAD_INDICES ==> indices[p] == GridIndex(p)
  {
    var topLeft := gz * VERTEX_COUNT + gx;
    var topRight := topLeft + 1;
    var bottomLeft := (gz + 1) * VERTEX_COUNT + gx;
    var bottomRight := bottomLeft + 1;
    indices[pointer] := topLeft;
    indices[pointer + 1] := bottomLeft;
    indices[pointer + 2] := topRight;
    indices[pointer + 3] := topRight;
    indices[pointer + 4] := bottomLeft;
    indices[pointer + 5] := bottomRight;
    assert indices[pointer..pointer + QUAD_INDICES] == QuadIndices(gz, gx);
    QuadBlock(indices[..], pointer, gz, gx);
  }

  /** A buffer that matches the index buffer up to grid square (gz, gx) and
   *  holds that square's six indices next matches it one square further. */
  lemma QuadBlock(s: seq<nat>, pointer: nat, gz: nat, gx: nat)
    requires gz < QUADS && gx < QUADS && pointer == QUAD_INDICES * (gz * QUADS + gx)
    requires |s| == INDEX_COUNT && s[pointer..pointer + QUAD_INDICES] == QuadIndices(gz, gx)
    requires forall p :: 0 <= p < pointer ==> s[p] == GridIndex(p)
    ensures forall p :: 0 <= p < pointer + QUAD_INDICES ==> s[p] == GridIndex(p)
  {
    forall p | pointer <= p < pointer + QUAD_INDICES
      ensures s[p] == GridIndex(p)
    {
      assert s[p] == s[pointer..pointer + QUAD_INDICES][p - pointer];
      GridIndexAt(gz, gx, p - pointer);
    }
  }
}
