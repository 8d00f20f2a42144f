/**
 * The sprite meshes the 2D apps build by index arithmetic: the circle of
 * Breakout::createCircleSprite (src/apps/game/2d/breakout/breakout.cpp), which
 * Gravity::createCircleSprite (src/apps/sample/2d/gravity.hpp) repeats line
 * for line, the rounded rectangle of Breakout::createRectangleSprite, and the
 * offset square of Gravity::createSquareSprite.
 *
 * Points on a circle come from cos and sin; they are inputs here, and the
 * model fixes which of them lands where.
 */
module Sprites {
  import opened Common
  import opened Mesh

  datatype Triangle = Triangle(a: Vertex, b: Vertex, c: Vertex)

  predicate IndexesInto(vertices: seq<Vertex>, indices: seq<nat>)
  {
    |indices| % 3 == 0 && forall k :: 0 <= k < |indices| ==> indices[k] < |vertices|
  }

  /** The triangles an indexed draw of the mesh produces, in order. */
  function Triangles(vertices: seq<Vertex>, indices: seq<nat>): (ts: seq<Triangle>)
    requires IndexesInto(vertices, indices)
    ensures |ts| == |indices| / 3
  {
    seq(|indices| / 3, t requires 0 <= t < |indices| / 3 =>
      Triangle(vertices[indices[3 * t]], vertices[indices[3 * t + 1]], vertices[indices[3 * t + 2]]))
  }

  /** A vertex with only its position set, as `{{x, y, z}}` builds it. */
  function At(x: real, y: real, z: real): Vertex
  {
    BlankVertex.(position := Vec3(x, y, z))
  }

  // ---------------------------------------------------------------------
  // Circle
  // ---------------------------------------------------------------------

  /** The circle as triangles: side i joins rim point i, the next rim point
   *  (wrapping to the first) and the centre, which is the zero vertex. */
  function CircleFan(rim: seq<Vertex>): (ts: seq<Triangle>)
    ensures |ts| == |rim|
  {
    seq(|rim|, i requires 0 <= i < |rim| => Triangle(rim[i], rim[(i + 1) % |rim|], BlankVertex))
  }

  /** The vertex list of the first i sides: rim point i, its successor and the centre. */
  function CircleVertices(rim: seq<Vertex>, i: nat): (vs: seq<Vertex>)
    requires i <= |rim|
    ensures |vs| == 3 * i
  {
    if i == 0 then [] else CircleVertices(rim, i - 1) + [rim[i - 1], rim[i % |rim|], BlankVertex]
  }

  lemma {:induction false} CircleVerticesAt(rim: seq<Vertex>, i: nat, t: nat)
    requires t < i <= |rim|
    ensures CircleVertices(rim, i)[3 * t] == rim[t]
    ensures CircleVertices(rim, i)[3 * t + 1] == rim[(t + 1) % |rim|]
    ensures CircleVertices(rim, i)[3 * t + 2] == BlankVertex
  {
    if t < i - 1 {
      CircleVerticesAt(rim, i - 1, t);
      assert CircleVertices(rim, i)[..3 * (i - 1)] == CircleVertices(rim, i - 1);
    }
  }

  /** Indexing the circle's vertices with 0, 1, ..., 3n - 1 draws the circle's fan. */
  lemma CircleTriangles(rim: seq<Vertex>, indices: seq<nat>)
    requires |indices| == 3 * |rim| && forall k :: 0 <= k < |indices| ==> indices[k] == k
    ensures IndexesInto(CircleVertices(rim, |rim|), indices)
    ensures Triangles(CircleVertices(rim, |rim|), indices) == CircleFan(rim)
  {
    var vs := CircleVertices(rim, |rim|);
    assert IndexesInto(vs, indices);
    var ts := Triangles(vs, indices);
    forall t | 0 <= t < |rim|
      ensures ts[t] == CircleFan(rim)[t]
    {
      assert 3 * t + 2 < |indices|;
      assert indices[3 * t] == 3 * t && indices[3 * t + 1] == 3 * t + 1 && indices[3 * t + 2] == 3 * t + 2;
      CircleVerticesAt(rim, |rim|, t);
    }
    assert |ts| == |CircleFan(rim)|;
  }

  /** createCircleSprite's loops for the rim points `rim` (one per side): three
   *  vertices per side, unshared, and the indices 0, 1, ..., 3n - 1. */
  method CircleMesh(rim: seq<Vertex>) returns (vertices: seq<Vertex>, indices: seq<nat>)
    ensures |vertices| == |indices| == 3 * |rim|
    ensures forall k :: 0 <= k < |indices| ==> indices[k] == k
    ensures IndexesInto(vertices, indices) && Triangles(vertices, indices) == CircleFan(rim)
  {
    var n := |rim|;
    var uniqueVertices := rim + [BlankVertex];
    vertices, indices := [], [];
    var i := 0;
    while i < n
      invariant i <= n && vertices == CircleVertices(rim, i) && |indices| == 3 * i
      invariant forall k :: 0 <= k < |indices| ==> indices[k] == k
    {
      vertices := vertices + [uniqueVertices[i], uniqueVertices[(i + 1) % n], uniqueVertices[n]];
      indices := indices + [i * 3, i * 3 + 1, i * 3 + 2];
      i := i + 1;
    }
    CircleTriangles(rim, indices);
  }

  /** The circle sprite's model: a circle of no sides has no vertices, and
   *  model creation rejects it; any other circle gets a model drawing 3n indices. */
  method CreateCircleSprite(rim: seq<Vertex>, vertexBuffer: Handle, indexBuffer: Handle)
    returns (r: Result<Model>)
    ensures r.Ok? <==> |rim| >= 1
    ensures r.Ok? ==> r.value.vertexCount == r.value.indexCount == 3 * |rim| && r.value.hasIndexBuffer
  {
    var vertices, indices := CircleMesh(rim);
    r := CreateModel(|vertices|, |indices|, NoAttachment, vertexBuffer, indexBuffer);
  }

  // ---------------------------------------------------------------------
  // Rounded rectangle
  // ---------------------------------------------------------------------

  const NUM_SEGMENTS: nat := 5
  const CORNER_RADIUS: real := 0.5

  /** The centre of rounded corner c (0 bottom left, 1 bottom right, 2 top
   *  right, 3 top left) of a width x height rectangle. */
  function CornerCentre(c: nat, width: real, height: real): Vec2
  {
    if c == 0 then Vec2(-width / 2.0 + CORNER_RADIUS, -height / 2.0 + CORNER_RADIUS)
    else if c == 1 then Vec2(width / 2.0 - CORNER_RADIUS, -height / 2.0 + CORNER_RADIUS)
    else if c == 2 then Vec2(width / 2.0 - CORNER_RADIUS, height / 2.0 - CORNER_RADIUS)
    else Vec2(-width / 2.0 + CORNER_RADIUS, height / 2.0 - CORNER_RADIUS)
  }

  /** Point i of corner c's arc; `arc(c, i)` is (cos, sin) of the corner's
   *  start angle plus i quarter-turns / NUM_SEGMENTS. */
  function ArcVertex(c: nat, i: nat, width: real, height: real, arc: (nat, nat) -> Vec2): Vertex
  {
    var centre := CornerCentre(c, width, height);
    At(centre.x + CORNER_RADIUS * arc(c, i).x, centre.y + CORNER_RADIUS * arc(c, i).y, 0.0)
  }

  /** The eight points where the straight edges meet the arcs. */
  function EdgeVertices(width: real, height: real): (vs: seq<Vertex>)
    ensures |vs| == 8
  {
    [At(-width / 2.0 + CORNER_RADIUS, -height / 2.0, 0.0), At(width / 2.0 - CORNER_RADIUS, -height / 2.0, 0.0),
     At(width / 2.0, -height / 2.0 + CORNER_RADIUS, 0.0), At(width / 2.0, height / 2.0 - CORNER_RADIUS, 0.0),
     At(width / 2.0 - CORNER_RADIUS, height / 2.0, 0.0), At(-width / 2.0 + CORNER_RADIUS, height / 2.0, 0.0),
     At(-width / 2.0, height / 2.0 - CORNER_RADIUS, 0.0), At(-width / 2.0, -height / 2.0 + CORNER_RADIUS, 0.0)]
  }

  /** addCornerVertices: NUM_SEGMENTS + 1 arc points, both ends included. */
  method AddCornerVertices(vertices: seq<Vertex>, c: nat, width: real, height: real, arc: (nat, nat) -> Vec2)
    returns (vertices': seq<Vertex>)
    ensures |vertices'| == |vertices| + NUM_SEGMENTS + 1 && vertices'[..|vertices|] == vertices
    ensures forall i :: 0 <= i <= NUM_SEGMENTS ==> vertices'[|vertices| + i] == ArcVertex(c, i, width, height, arc)
  {
    vertices' := vertices;
    var i := 0;
    while i <= NUM_SEGMENTS
      invariant i <= NUM_SEGMENTS + 1 && |vertices'| == |vertices| + i && vertices'[..|vertices|] == vertices
      invariant forall j :: 0 <= j < i ==> vertices'[|vertices| + j] == ArcVertex(c, j, width, height, arc)
    {
      vertices' := vertices' + [ArcVertex(c, i, width, height, arc)];
      i := i + 1;
    }
  }

  /** The fan drawn from vertex 0: triangle t is (0, t + 1, t + 2). */
  function FanFromFirst(vertices: seq<Vertex>): (ts: seq<Triangle>)
    requires |vertices| >= 2
    ensures |ts| == |vertices| - 2
  {
    seq(|vertices| - 2, t requires 0 <= t < |vertices| - 2 => Triangle(vertices[0], vertices[t + 1], vertices[t + 2]))
  }

  /** createRectangleSprite's vertices and indices: four arcs of six points,
   *  the eight edge points, and a fan of 3 * 30 indices around vertex 0. */
  method RectangleMesh(width: real, height: real, arc: (nat, nat) -> Vec2)
    returns (vertices: seq<Vertex>, indices: seq<nat>)
    ensures |vertices| == 4 * (NUM_SEGMENTS + 1) + 8 == 32 && |indices| == 3 * 30
    ensures forall c, i :: 0 <= c < 4 && 0 <= i <= NUM_SEGMENTS ==>
      vertices[c * (NUM_SEGMENTS + 1) + i] == ArcVertex(c, i, width, height, arc)
    ensures vertices[24..] == EdgeVertices(width, height)
    ensures forall t :: 0 <= t < 30 ==> indices[3 * t] == 0 && indices[3 * t + 1] == t + 1 && indices[3 * t + 2] == t + 2
    ensures IndexesInto(vertices, indices) && Triangles(vertices, indices) == FanFromFirst(vertices)
  {
    vertices := AddCornerVertices([], 0, width, height, arc);
    vertices := AddCornerVertices(vertices, 1, width, height, arc);
    vertices := AddCornerVertices(vertices, 2, width, height, arc);
    vertices := AddCornerVertices(vertices, 3, width, height, arc);
    ghost var arcs := vertices;
    assert forall c, i :: 0 <= c < 4 && 0 <= i <= NUM_SEGMENTS ==>
      arcs[c * (NUM_SEGMENTS + 1) + i] == ArcVertex(c, i, width, height, arc);
    vertices := vertices + EdgeVertices(width, height);
    indices := [];
    var i := 0;
    while i < |vertices| - 2
      invariant i <= |vertices| - 2 && |indices| == 3 * i
      invariant forall t :: 0 <= t < i ==> indices[3 * t] == 0 && indices[3 * t + 1] == t + 1 && indices[3 * t + 2] == t + 2
    {
      indices := indices + [0, i + 1, i + 2];
      i := i + 1;
    }
    forall k | 0 <= k < |indices|
      ensures indices[k] < |vertices|
    {
      assert k == 3 * (k / 3) + k % 3;
    }
  }

  /** The rectangle sprite's model. The emptiness check never fires and model
   *  creation always succeeds, with 32 vertices and 90 indices. */
  method CreateRectangleSprite(width: real, height: real, arc: (nat, nat) -> Vec2,
                               vertexBuffer: Handle, indexBuffer: Handle)
    returns (r: Result<Model>)
    ensures r.Ok? && r.value.vertexCount == 32 && r.value.indexCount == 90 && r.value.hasIndexBuffer
  {
    var vertices, indices := RectangleMesh(width, height, arc);
    if |vertices| == 0 || |indices| == 0 {
      return Err("Vertex or index buffer is empty!");
    }
    r := CreateModel(|vertices|, |indices|, NoAttachment, vertexBuffer, indexBuffer);
  }

  // ---------------------------------------------------------------------
  // Offset square
  // ---------------------------------------------------------------------

  /** The unit square centred on the origin, counter-clockwise from bottom left. */
  const UnitSquare: seq<Vec3> :=
    [Vec3(-0.5, -0.5, 0.0), Vec3(0.5, -0.5, 0.0), Vec3(0.5, 0.5, 0.0), Vec3(-0.5, 0.5, 0.0)]

  /** createSquareSprite: every corner moved by the same offset, and the two
   *  triangles (0, 1, 2) and (0, 2, 3). */
  method SquareMesh(offset: Vec3) returns (vertices: seq<Vertex>, indices: seq<nat>)
    ensures |vertices| == 4 && indices == [0, 1, 2, 0, 2, 3]
    ensures forall k :: 0 <= k < 4 ==> vertices[k] == BlankVertex.(position := UnitSquare[k].Plus(offset))
    ensures IndexesInto(vertices, indices)
    ensures Triangles(vertices, indices) == [Triangle(vertices[0], vertices[1], vertices[2]), Triangle(vertices[0], vertices[2], vertices[3])]
  {
    vertices := [At(-0.5, -0.5, 0.0), At(0.5, -0.5, 0.0), At(0.5, 0.5, 0.0), At(-0.5, 0.5, 0.0)];
    var k := 0;
    while k < |vertices|
      invariant k <= |vertices| == 4
      invariant forall j :: 0 <= j < k ==> vertices[j] == BlankVertex.(position := UnitSquare[j].Plus(offset))
      invariant forall j :: k <= j < 4 ==> vertices[j] == BlankVertex.(position := UnitSquare[j])
    {
      vertices := vertices[k := vertices[k].(position := vertices[k].position.Plus(offset))];
      k := k + 1;
    }
    indices := [0, 1, 2, 0, 2, 3];
  }
}
