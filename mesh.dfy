/**
 * Meshes of src/framework/core/nile_model.cpp: the builder that turns the
 * records of an OBJ file into deduplicated vertices and indices, the count
 * checks made when a model's buffers are created, and the commands `bind`
 * and `draw` record.
 *
 * The OBJ parser itself is not part of this model: its output (attribute
 * arrays and one index record per face corner) is an input.
 */
module Mesh {
  import opened Common

  /** NileModel::Vertex; equality compares all four fields. */
  datatype Vertex = Vertex(position: Vec3, color: Vec3, normal: Vec3, uv: Vec2)

  /** A value-initialised vertex: every field zero. */
  const BlankVertex: Vertex := Vertex(Zero3, Zero3, Zero3, Zero2)

  // ---------------------------------------------------------------------
  // OBJ loading with deduplication
  // ---------------------------------------------------------------------

  /** tinyobj's flat attribute arrays. */
  datatype Attrib = Attrib(vertices: seq<real>, colors: seq<real>, normals: seq<real>, texcoords: seq<real>)

  /** tinyobj::index_t: a negative index means the attribute is absent. */
  datatype IndexRecord = IndexRecord(vertexIndex: int, normalIndex: int, texcoordIndex: int)

  /** What the OBJ loader reports: attributes and each shape's index records, or failure. */
  datatype ObjFile = Loaded(attrib: Attrib, shapes: seq<seq<IndexRecord>>) | LoadFailed(warn: string, err: string)

  /** Every present index stays inside the attribute array it selects from. */
  predicate InBounds(a: Attrib, r: IndexRecord)
  {
    (r.vertexIndex >= 0 ==> 3 * r.vertexIndex + 2 < |a.vertices| && 3 * r.vertexIndex + 2 < |a.colors|) &&
    (r.normalIndex >= 0 ==> 3 * r.normalIndex + 2 < |a.normals|) &&
    (r.texcoordIndex >= 0 ==> 2 * r.texcoordIndex + 1 < |a.texcoords|)
  }

  /** The vertex assembled for one index record: absent attributes stay zero. */
  function Assemble(a: Attrib, r: IndexRecord): (v: Vertex)
    requires InBounds(a, r)
    ensures r.vertexIndex < 0 ==> v.position == Zero3 && v.color == Zero3
    ensures r.normalIndex < 0 ==> v.normal == Zero3
    ensures r.texcoordIndex < 0 ==> v.uv == Zero2
    ensures r.vertexIndex >= 0 ==>
      v.position == Vec3(a.vertices[3 * r.vertexIndex], a.vertices[3 * r.vertexIndex + 1], a.vertices[3 * r.vertexIndex + 2]) &&
      v.color == Vec3(a.colors[3 * r.vertexIndex], a.colors[3 * r.vertexIndex + 1], a.colors[3 * r.vertexIndex + 2])
    ensures r.normalIndex >= 0 ==>
      v.normal == Vec3(a.normals[3 * r.normalIndex], a.normals[3 * r.normalIndex + 1], a.normals[3 * r.normalIndex + 2])
    ensures r.texcoordIndex >= 0 ==> v.uv == Vec2(a.texcoords[2 * r.texcoordIndex], a.texcoords[2 * r.texcoordIndex + 1])
  {
    var position :=
      if r.vertexIndex >= 0 then
        Vec3(a.vertices[3 * r.vertexIndex], a.vertices[3 * r.vertexIndex + 1], a.vertices[3 * r.vertexIndex + 2])
      else Zero3;
    var color :=
      if r.vertexIndex >= 0 then
        Vec3(a.colors[3 * r.vertexIndex], a.colors[3 * r.vertexIndex + 1], a.colors[3 * r.vertexIndex + 2])
      else Zero3;
    var normal :=
      if r.normalIndex >= 0 then
        Vec3(a.normals[3 * r.normalIndex], a.normals[3 * r.normalIndex + 1], a.normals[3 * r.normalIndex + 2])
      else Zero3;
    var uv :=
      if r.texcoordIndex >= 0 then
        Vec2(a.texcoords[2 * r.texcoordIndex], a.texcoords[2 * r.texcoordIndex + 1])
      else Zero2;
    Vertex(position, color, normal, uv)
  }

  /** The index records of all shapes, shape after shape. */
  function Corners(shapes: seq<seq<IndexRecord>>): seq<IndexRecord>
  {
    if shapes == [] then [] else shapes[0] + Corners(shapes[1..])
  }

  /** The distinct vertices of a sequence, in order of first occurrence. */
  function Unique(vs: seq<Vertex>): (u: seq<Vertex>)
  {
    if vs == [] then []
    else
      var prefix := Unique(vs[..|vs| - 1]);
      var last := vs[|vs| - 1];
      assert vs == vs[..|vs| - 1] + [last];
      if last in prefix then prefix else prefix + [last]
  }

  /** Deduplication keeps exactly the vertices that occur, each once. */
  lemma {:induction false} UniqueMembers(vs: seq<Vertex>)
    ensures forall v :: v in Unique(vs) <==> v in vs
    ensures Distinct(Unique(vs))
  {
    if vs != [] {
      var init := vs[..|vs| - 1];
      UniqueMembers(init);
      assert vs == init + [vs[|vs| - 1]];
    }
  }

  lemma UniqueDistinct(vs: seq<Vertex>)
    ensures Distinct(Unique(vs))
  {
    UniqueMembers(vs);
  }

  lemma UniqueSnoc(vs: seq<Vertex>, v: Vertex)
    ensures Unique(vs + [v]) == if v in Unique(vs) then Unique(vs) else Unique(vs) + [v]
  {
    assert (vs + [v])[..|vs|] == vs;
  }

  predicate Distinct(s: seq<Vertex>)
  {
    forall i, j :: 0 <= i < j < |s| ==> s[i] != s[j]
  }

  class Builder {
    var vertices: seq<Vertex>
    var indices: seq<nat>

    constructor ()
      ensures vertices == [] && indices == []
    {
      vertices := [];
      indices := [];
    }

    /** NileModel::Builder::loadModel. A loader failure throws before anything is
     *  cleared; otherwise every face corner is assembled into a vertex, the first
     *  occurrence of each distinct vertex is kept, and one index per corner points
     *  at its vertex. */
    method LoadModel(file: ObjFile) returns (r: Result<()>)
      requires file.Loaded? ==> forall c :: c in Corners(file.shapes) ==> InBounds(file.attrib, c)
      modifies this
      ensures r.Err? <==> file.LoadFailed?
      ensures r.Err? ==> r.message == file.warn + file.err && vertices == old(vertices) && indices == old(indices)
      ensures r.Ok? ==> |indices| == |Corners(file.shapes)|
      ensures r.Ok? ==> Distinct(vertices)
      ensures r.Ok? ==> forall k :: 0 <= k < |indices| ==>
        indices[k] < |vertices| && vertices[indices[k]] == Assemble(file.attrib, Corners(file.shapes)[k])
      ensures r.Ok? ==> vertices == Unique(AssembleAll(file.attrib, Corners(file.shapes)))
    {
      if file.LoadFailed? {
        return Err(file.warn + file.err);
      }
      var corners := Corners(file.shapes);
      vertices := [];
      indices := [];
      vertices, indices := Deduplicate(AssembleAll(file.attrib, corners));
      r := Ok(());
    }
  }

  /** After the first n assembled vertices: `vertices` holds their distinct
   *  values in order of first occurrence, the hash map gives each its position,
   *  and every index points at its vertex. */
  predicate Indexed(assembled: seq<Vertex>, n: nat, vertices: seq<Vertex>, positions: map<Vertex, nat>, indices: seq<nat>)
  {
    n <= |assembled| && |indices| == n && vertices == Unique(assembled[..n]) &&
    (forall k :: 0 <= k < |vertices| ==> vertices[k] in positions) &&
    (forall v :: v in positions ==> positions[v] < |vertices| && vertices[positions[v]] == v) &&
    (forall k :: 0 <= k < n ==> indices[k] < |vertices| && vertices[indices[k]] == assembled[k])
  }

  /** One iteration of the dedup loop on a vertex seen before: its position
   *  is looked up. */
  lemma DedupSeen(assembled: seq<Vertex>, n: nat, vertices: seq<Vertex>, positions: map<Vertex, nat>, indices: seq<nat>)
    requires Indexed(assembled, n, vertices, positions, indices) && n < |assembled| && assembled[n] in positions
    ensures Indexed(assembled, n + 1, vertices, positions, indices + [positions[assembled[n]]])
  {
    var v := assembled[n];
    UniqueSnoc(assembled[..n], v);
    assert assembled[..n + 1] == assembled[..n] + [v];
    assert v in vertices;
  }

  /** One iteration of the dedup loop on a new vertex: it is appended and
   *  its position recorded. */
  lemma DedupNew(assembled: seq<Vertex>, n: nat, vertices: seq<Vertex>, positions: map<Vertex, nat>, indices: seq<nat>)
    requires Indexed(assembled, n, vertices, positions, indices) && n < |assembled| && assembled[n] !in positions
    ensures Indexed(assembled, n + 1, vertices + [assembled[n]], positions[assembled[n] := |vertices|], indices + [|vertices|])
  {
    var v := assembled[n];
    UniqueSnoc(assembled[..n], v);
    assert assembled[..n + 1] == assembled[..n] + [v];
    assert v !in vertices;
  }

  /** The dedup loop of loadModel over the assembled vertices, with its
   *  hash map from vertex to position. */
  method Deduplicate(assembled: seq<Vertex>) returns (vertices: seq<Vertex>, indices: seq<nat>)
    ensures |indices| == |assembled|
    ensures Distinct(vertices)
    ensures forall k :: 0 <= k < |indices| ==> indices[k] < |vertices| && vertices[indices[k]] == assembled[k]
    ensures vertices == Unique(assembled)
  {
    vertices := [];
    indices := [];
    var uniqueVertices: map<Vertex, nat> := map[];
    var i := 0;
    while i < |assembled|
      invariant Indexed(assembled, i, vertices, uniqueVertices, indices)
    {
      var vertex := assembled[i];
      if vertex !in uniqueVertices {
        DedupNew(assembled, i, vertices, uniqueVertices, indices);
        uniqueVertices := uniqueVertices[vertex := |vertices|];
        vertices := vertices + [vertex];
      } else {
        DedupSeen(assembled, i, vertices, uniqueVertices, indices);
      }
      indices := indices + [uniqueVertices[vertex]];
      i := i + 1;
    }
    assert assembled[..i] == assembled;
    UniqueDistinct(assembled);
  }

  function AssembleAll(a: Attrib, corners: seq<IndexRecord>): (vs: seq<Vertex>)
    requires forall c :: c in corners ==> InBounds(a, c)
    ensures |vs| == |corners|
    ensures forall k :: 0 <= k < |corners| ==> vs[k] == Assemble(a, corners[k])
  {
    seq(|corners|, k requires 0 <= k < |corners| => Assemble(a, corners[k]))
  }

  // ---------------------------------------------------------------------
  // Models: buffer creation, bind and draw
  // ---------------------------------------------------------------------

  /** A created NileModel. A material or material pack pointer that was given
   *  is recorded together with whether its create() ran. */
  datatype Model = Model(
    vertexBuffer: Handle, vertexCount: nat,
    hasIndexBuffer: bool, indexBuffer: Handle, indexCount: nat,
    material: Option<Handle>, texturePack: Option<Handle>, createdAttachment: Option<Handle>)

  /** Which constructor is used: no attachment, a Material pointer, or a MaterialPack pointer. */
  datatype Attachment = NoAttachment | WithMaterial(material: Option<Handle>) | WithPack(pack: Option<Handle>)

  /** The NileModel constructors: vertex buffers are created first (fewer than 3
   *  vertices throws), then index buffers (no index throws); only then does a
   *  non-null material or pack get created. */
  function CreateModel(vertexCount: nat, indexCount: nat, attachment: Attachment,
                       vertexBuffer: Handle, indexBuffer: Handle): (r: Result<Model>)
    ensures r.Err? <==> vertexCount < 3 || indexCount == 0
    ensures vertexCount < 3 ==> r == Err("Vertex count must be at least 3")
    ensures vertexCount >= 3 && indexCount == 0 ==> r == Err("Index count must be at least 1")
    ensures r.Ok? ==> r.value.vertexCount == vertexCount && r.value.indexCount == indexCount
    ensures r.Ok? ==> r.value.hasIndexBuffer
    ensures r.Ok? ==> (r.value.createdAttachment.Some? <==>
      (attachment.WithMaterial? && attachment.material.Some?) || (attachment.WithPack? && attachment.pack.Some?))
  {
    if vertexCount < 3 then Err("Vertex count must be at least 3")
    else if indexCount == 0 then Err("Index count must be at least 1")
    else
      var material := if attachment.WithMaterial? then attachment.material else None;
      var pack := if attachment.WithPack? then attachment.pack else None;
      var created := if material.Some? then material else pack;
      Ok(Model(vertexBuffer, vertexCount, indexCount > 0, indexBuffer, indexCount, material, pack, created))
  }

  /** Commands recorded by `bind`. */
  function Bind(m: Model): (cmds: seq<Command>)
    ensures |cmds| >= 1 && cmds[0] == BindVertexBuffer(m.vertexBuffer)
    ensures BindIndexBuffer(m.indexBuffer) in cmds <==> m.hasIndexBuffer
  {
    [BindVertexBuffer(m.vertexBuffer)] + if m.hasIndexBuffer then [BindIndexBuffer(m.indexBuffer)] else []
  }

  /** The command recorded by `draw`. */
  function DrawCommand(m: Model): (c: Command)
    ensures c.DrawIndexed? <==> m.hasIndexBuffer
    ensures c.DrawIndexed? ==> c.indexCount == m.indexCount
    ensures c.Draw? ==> c.vertexCount == m.vertexCount
  {
    if m.hasIndexBuffer then DrawIndexed(m.indexCount) else Draw(m.vertexCount)
  }

  /** Because creation rejects an empty index list, every model that exists binds
   *  an index buffer and draws indexed with all its indices. */
  lemma CreatedModelsDrawIndexed(vertexCount: nat, indexCount: nat, attachment: Attachment, vb: Handle, ib: Handle)
    requires CreateModel(vertexCount, indexCount, attachment, vb, ib).Ok?
    ensures var m := CreateModel(vertexCount, indexCount, attachment, vb, ib).value;
      DrawCommand(m) == DrawIndexed(indexCount) && Bind(m) == [BindVertexBuffer(vb), BindIndexBuffer(ib)]
  {
  }

  /** Deduplication never produces more vertices than there were face corners. */
  lemma {:induction false} UniqueShorter(vs: seq<Vertex>)
    ensures |Unique(vs)| <= |vs|
  {
    if vs != [] {
      UniqueShorter(vs[..|vs| - 1]);
    }
  }
}
