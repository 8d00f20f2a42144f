/**
 * The per-object draw loops of the render systems: SimpleRenderSystem,
 * RenderSystem2D and RenderSystem3D (src/framework/systems/rendering/render_system.cpp),
 * MirrorSystem::renderMirrorPlane (src/framework/systems/mirror/mirror_system.cpp),
 * WaterSystem::render and renderMaps (src/framework/systems/water/water_system.cpp)
 * and ParticleGenerator::render (src/framework/systems/particles/particle_system.cpp).
 *
 * All of them run the same loop: bind the pipeline and the global set at index
 * 0, then for every object the system selects build one descriptor set from
 * the frame's pool, bind it at index 1, push constants, bind and draw the model.
 * They differ in which objects they select, which bindings they write and what
 * they push; SystemKind names the variant.
 */
module RenderSystems {
  import opened Common
  import Mesh
  import Descriptors
  import opened GameObjects

  /** VK_SHADER_STAGE_VERTEX_BIT and VK_SHADER_STAGE_FRAGMENT_BIT. */
  const STAGE_VERTEX: nat := 1
  const STAGE_FRAGMENT: nat := 16
  /** Their bitwise or. */
  const STAGE_VERTEX_FRAGMENT: nat := 17

  datatype SystemKind =
    | SimpleSystem    // SimpleRenderSystem::renderGameObjects
    | System2D        // RenderSystem2D::renderGameObjects
    | System3D        // RenderSystem3D::renderGameObjects
    | MirrorPlane     // MirrorSystem::renderMirrorPlane
    | WaterRender     // WaterSystem::render
    | WaterMaps       // WaterSystem::renderMaps
    | ParticleRender  // ParticleGenerator::render

  /** Which objects each system draws. */
  predicate Draws(kind: SystemKind, o: GameObject)
  {
    match kind
    case SimpleSystem => o.model.Some? && !o.GetIsHidden()
    case System2D => o.model.Some? && !o.GetIsHidden() && !o.destroyed
    case System3D => o.model.Some? && !o.isMirror && !o.GetIsHidden()
    case MirrorPlane => o.model.Some? && o.isMirror && !o.GetIsHidden()
    case WaterRender => o.water.Some?
    case WaterMaps => o.water.Some?
    case ParticleRender =>
      o.model.Some? && o.isParticle && !o.GetIsHidden() && o.particle.Some? && o.particle.value.life > 0.0
  }

  /** The textures a system reads through a pointer for an object it draws. */
  predicate HasImages(kind: SystemKind, o: GameObject)
  {
    match kind
    case MirrorPlane => o.reflectionTexture.Some?
    case WaterRender => o.reflectionTexture.Some? && o.refractionTexture.Some?
    case WaterMaps =>
      o.dudvMap.Some? && o.normalMap.Some? && o.depthMap.Some? &&
      o.reflectionTexture.Some? && o.refractionTexture.Some?
    case _ => o.diffuseMap.Some?
  }

  /** What the loop of a system may draw: a model to bind and, for particles,
   *  the particle component whose colour and position are pushed. */
  predicate Drawable(kind: SystemKind, o: GameObject)
  {
    o.model.Some? && (kind == ParticleRender ==> o.particle.Some?)
  }

  /** No pointer the loop follows is null: the particle component of a visible
   *  particle object (its life is tested), and the model and the textures of
   *  every object the system draws. */
  predicate Renderable(kind: SystemKind, o: GameObject)
  {
    (kind == ParticleRender && o.model.Some? && o.isParticle && !o.GetIsHidden() ==> o.particle.Some?) &&
    (Draws(kind, o) ==> Drawable(kind, o) && HasImages(kind, o))
  }

  /** No object is drawn by both the 3D system and the mirror system, and
   *  together they draw exactly what the base system draws. */
  lemma MirrorAnd3DPartition(o: GameObject)
    ensures !(Draws(System3D, o) && Draws(MirrorPlane, o))
    ensures Draws(System3D, o) || Draws(MirrorPlane, o) <==> Draws(SimpleSystem, o)
  {
  }

  // ---------------------------------------------------------------------
  // Layouts
  // ---------------------------------------------------------------------

  /** The system's set layout: binding 0 a uniform buffer for both stages, then
   *  combined image samplers for the fragment stage, 1 for most systems and 1..5
   *  for water. */
  function SystemLayout(kind: SystemKind): map<nat, Descriptors.LayoutBinding>
  {
    var ubo := Descriptors.LayoutBinding(0, Descriptors.UniformBuffer, 1, STAGE_VERTEX_FRAGMENT);
    if kind == WaterRender || kind == WaterMaps then
      map[0 := ubo,
          1 := Descriptors.LayoutBinding(1, Descriptors.CombinedImageSampler, 1, STAGE_FRAGMENT),
          2 := Descriptors.LayoutBinding(2, Descriptors.CombinedImageSampler, 1, STAGE_FRAGMENT),
          3 := Descriptors.LayoutBinding(3, Descriptors.CombinedImageSampler, 1, STAGE_FRAGMENT),
          4 := Descriptors.LayoutBinding(4, Descriptors.CombinedImageSampler, 1, STAGE_FRAGMENT),
          5 := Descriptors.LayoutBinding(5, Descriptors.CombinedImageSampler, 1, STAGE_FRAGMENT)]
    else
      map[0 := ubo,
          1 := Descriptors.LayoutBinding(1, Descriptors.CombinedImageSampler, 1, STAGE_FRAGMENT)]
  }

  /** The system layout as createPipelineLayout builds it, through the layout builder. */
  method CreateSystemLayout(kind: SystemKind, order: seq<nat>, vk: VkResult, handle: Handle)
    returns (r: Result<Descriptors.SetLayout>)
    requires Enumerates(order, SystemLayout(kind))
    ensures r.Ok? <==> vk == Success
    ensures r.Err? ==> r.message == "failed to create descriptor set layout!"
    ensures r.Ok? ==> r.value.handle == handle && r.value.bindings == SystemLayout(kind)
    ensures r.Ok? ==> Descriptors.DistinctBindingNumbers(r.value.createInfo)
  {
    var builder := new Descriptors.LayoutBuilder();
    builder.AddBinding(0, Descriptors.UniformBuffer, STAGE_VERTEX_FRAGMENT);
    builder.AddBinding(1, Descriptors.CombinedImageSampler, STAGE_FRAGMENT);
    if kind == WaterRender || kind == WaterMaps {
      builder.AddBinding(2, Descriptors.CombinedImageSampler, STAGE_FRAGMENT);
      builder.AddBinding(3, Descriptors.CombinedImageSampler, STAGE_FRAGMENT);
      builder.AddBinding(4, Descriptors.CombinedImageSampler, STAGE_FRAGMENT);
      builder.AddBinding(5, Descriptors.CombinedImageSampler, STAGE_FRAGMENT);
    }
    r := builder.Build(order, vk, handle);
  }

  /** A created VkPipelineLayout with the set layouts it was made from, in set order. */
  datatype PipelineLayout = PipelineLayout(handle: Handle, setLayouts: seq<Handle>, systemLayout: Descriptors.SetLayout)

  /** createPipelineLayout: set 0 is the layout passed in (global or offscreen),
   *  set 1 the system's own; either creation failing throws. */
  method CreatePipelineLayout(kind: SystemKind, passedIn: Handle, order: seq<nat>,
                              vkSetLayout: VkResult, setLayoutHandle: Handle,
                              vkPipelineLayout: VkResult, handle: Handle)
    returns (r: Result<PipelineLayout>)
    requires Enumerates(order, SystemLayout(kind))
    ensures r.Ok? <==> vkSetLayout == Success && vkPipelineLayout == Success
    ensures vkSetLayout != Success ==> r == Err("failed to create descriptor set layout!")
    ensures vkSetLayout == Success && vkPipelineLayout != Success ==> r == Err("failed to create pipeline layout!")
    ensures r.Ok? ==> r.value.handle == handle && r.value.setLayouts == [passedIn, setLayoutHandle]
    ensures r.Ok? ==> r.value.systemLayout.bindings == SystemLayout(kind)
  {
    var systemLayout := CreateSystemLayout(kind, order, vkSetLayout, setLayoutHandle);
    if systemLayout.Err? {
      return Err(systemLayout.message);
    }
    if vkPipelineLayout != Success {
      return Err("failed to create pipeline layout!");
    }
    r := Ok(PipelineLayout(handle, [passedIn, systemLayout.value.handle], systemLayout.value));
  }

  // ---------------------------------------------------------------------
  // What is written into an object's set, and what is pushed
  // ---------------------------------------------------------------------

  /** The descriptor type a layout must declare for a kind of info. */
  function TypeOf(info: Descriptors.Info): Descriptors.DescriptorType
  {
    if info.BufferInfo? then Descriptors.UniformBuffer else Descriptors.CombinedImageSampler
  }

  /** The (binding, info) pairs a system writes for one object, in call order:
   *  the object's uniform slot at 0, then the images. */
  function Planned(kind: SystemKind, o: GameObject, buffer: Handle): seq<(nat, Descriptors.Info)>
    requires HasImages(kind, o)
  {
    var slot := (0, Descriptors.BufferInfo(buffer, o.id));
    match kind
    case MirrorPlane => [slot, (1, Descriptors.ImageInfo(o.reflectionTexture.value))]
    case WaterRender =>
      [slot, (4, Descriptors.ImageInfo(o.reflectionTexture.value)),
             (5, Descriptors.ImageInfo(o.refractionTexture.value))]
    case WaterMaps =>
      [slot, (1, Descriptors.ImageInfo(o.dudvMap.value)),
             (2, Descriptors.ImageInfo(o.normalMap.value)),
             (3, Descriptors.ImageInfo(o.depthMap.value)),
             (4, Descriptors.ImageInfo(o.reflectionTexture.value)),
             (5, Descriptors.ImageInfo(o.refractionTexture.value))]
    case _ => [slot, (1, Descriptors.ImageInfo(o.diffuseMap.value))]
  }

  function BindingsOf(p: seq<(nat, Descriptors.Info)>): set<nat>
  {
    set k | 0 <= k < |p| :: p[k].0
  }

  /** Every binding a system writes is declared in its layout, once, with count 1
   *  and the type of what is written, so the writer's assertions hold; binding 0
   *  always receives the object's uniform slot. */
  lemma PlannedFitsLayout(kind: SystemKind, o: GameObject, buffer: Handle)
    requires HasImages(kind, o)
    ensures var p := Planned(kind, o, buffer);
      |p| >= 2 && p[0] == (0, Descriptors.BufferInfo(buffer, o.id)) &&
      (forall k :: 0 <= k < |p| ==>
        p[k].0 in SystemLayout(kind) && SystemLayout(kind)[p[k].0].count == 1 &&
        SystemLayout(kind)[p[k].0].descriptorType == TypeOf(p[k].1)) &&
      (forall i, j :: 0 <= i < j < |p| ==> p[i].0 != p[j].0)
  {
  }

  /** render writes the uniform slot and the two offscreen images; renderMaps
   *  writes every binding the water layout declares. */
  lemma WaterBindings(o: GameObject, buffer: Handle)
    requires HasImages(WaterMaps, o)
    ensures BindingsOf(Planned(WaterRender, o, buffer)) == {0, 4, 5}
    ensures BindingsOf(Planned(WaterMaps, o, buffer)) == SystemLayout(WaterMaps).Keys == {0, 1, 2, 3, 4, 5}
  {
    var p := Planned(WaterRender, o, buffer);
    assert p[0].0 == 0 && p[1].0 == 4 && p[2].0 == 5;
    var q := Planned(WaterMaps, o, buffer);
    assert q[0].0 == 0 && q[1].0 == 1 && q[2].0 == 2 && q[3].0 == 3 && q[4].0 == 4 && q[5].0 == 5;
  }

  /** A set's bindings are exactly the planned ones, each holding its planned info. */
  predicate Holds(contents: map<nat, Descriptors.Info>, p: seq<(nat, Descriptors.Info)>)
  {
    contents.Keys == BindingsOf(p) &&
    forall k :: 0 <= k < |p| ==> p[k].0 in contents && contents[p[k].0] == p[k].1
  }

  /** The push-constant block of each system; matrices are kept as the transform they come from. */
  function Push(kind: SystemKind, o: GameObject): PushData
    requires kind == ParticleRender ==> o.particle.Some?
  {
    match kind
    case System2D =>
      var t := o.transform2d;
      Push2D(t.scale, t.rotation, Vec2(t.translation.x, t.translation.y), o.color)
    case WaterRender =>
      var t := o.transform.translation;
      PushWater(Vec4(t.x, t.y, t.z, 1.0))
    case WaterMaps =>
      var t := o.transform.translation;
      PushWater(Vec4(t.x, t.y, t.z, 1.0))
    case ParticleRender => PushParticle(o.particle.value.position, o.particle.value.color)
    case MirrorPlane => PushMirror(o.transform.translation, o.transform.scale, o.transform.rotation)
    case _ => Push3D(o.transform.translation, o.transform.scale, o.transform.rotation)
  }

  /** What one drawn object records: its set at index 1, its push constants,
   *  the model's bind and the model's draw. */
  function ObjectBlock(kind: SystemKind, o: GameObject, ds: Handle): seq<Command>
    requires Drawable(kind, o)
  {
    [BindDescriptorSet(1, ds), PushConstants(Push(kind, o))] + Mesh.Bind(o.model.value) + [Mesh.DrawCommand(o.model.value)]
  }

  function ObjectCommands(kind: SystemKind, objects: map<Id, GameObject>, drawn: seq<Id>, sets: seq<Handle>): seq<Command>
    requires |drawn| == |sets|
    requires forall id :: id in drawn ==> id in objects && Drawable(kind, objects[id])
  {
    if drawn == [] then []
    else
      var n := |drawn| - 1;
      ObjectCommands(kind, objects, drawn[..n], sets[..n]) + ObjectBlock(kind, objects[drawn[n]], sets[n])
  }

  /** Number of draw commands in a recording. */
  function CountDraws(cmds: seq<Command>): nat
  {
    if cmds == [] then 0
    else CountDraws(cmds[..|cmds| - 1]) + if cmds[|cmds| - 1].Draw? || cmds[|cmds| - 1].DrawIndexed? then 1 else 0
  }

  lemma {:induction false} CountDrawsAppend(a: seq<Command>, b: seq<Command>)
    decreases |b|
    ensures CountDraws(a + b) == CountDraws(a) + CountDraws(b)
  {
    if b != [] {
      var n := |b| - 1;
      assert (a + b)[..|a + b| - 1] == a + b[..n];
      CountDrawsAppend(a, b[..n]);
    } else {
      assert a + b == a;
    }
  }

  lemma ObjectBlockDrawsOnce(kind: SystemKind, o: GameObject, ds: Handle)
    requires Drawable(kind, o)
    ensures CountDraws(ObjectBlock(kind, o, ds)) == 1
  {
    var m := o.model.value;
    var head := [BindDescriptorSet(1, ds), PushConstants(Push(kind, o))];
    CountDrawsAppend(head, Mesh.Bind(m));
    CountDrawsAppend(head + Mesh.Bind(m), [Mesh.DrawCommand(m)]);
    assert [Mesh.DrawCommand(m)][..0] == [];
    assert head[..1] == [BindDescriptorSet(1, ds)];
    assert head[..1][..0] == [];
    if m.hasIndexBuffer {
      assert Mesh.Bind(m) == [BindVertexBuffer(m.vertexBuffer), BindIndexBuffer(m.indexBuffer)];
      assert Mesh.Bind(m)[..1] == [BindVertexBuffer(m.vertexBuffer)];
      assert Mesh.Bind(m)[..1][..0] == [];
    } else {
      assert Mesh.Bind(m) == [BindVertexBuffer(m.vertexBuffer)];
      assert Mesh.Bind(m)[..0] == [];
    }
  }

  /** Every drawn object is drawn exactly once: the recording holds one draw per object. */
  lemma {:induction false} OneDrawPerObject(kind: SystemKind, objects: map<Id, GameObject>, drawn: seq<Id>, sets: seq<Handle>)
    requires |drawn| == |sets|
    requires forall id :: id in drawn ==> id in objects && Drawable(kind, objects[id])
    ensures CountDraws(ObjectCommands(kind, objects, drawn, sets)) == |drawn|
  {
    if drawn != [] {
      var n := |drawn| - 1;
      OneDrawPerObject(kind, objects, drawn[..n], sets[..n]);
      CountDrawsAppend(ObjectCommands(kind, objects, drawn[..n], sets[..n]), ObjectBlock(kind, objects[drawn[n]], sets[n]));
      ObjectBlockDrawsOnce(kind, objects[drawn[n]], sets[n]);
    }
  }

  // ---------------------------------------------------------------------
  // Selection
  // ---------------------------------------------------------------------

  /** The ids a system draws among the first n visited, in visiting order. */
  function DrawnPrefix(kind: SystemKind, objects: map<Id, GameObject>, order: seq<Id>, n: nat): (drawn: seq<Id>)
    requires n <= |order|
    ensures forall id :: id in drawn ==> id in order && id in objects && Draws(kind, objects[id])
  {
    if n == 0 then []
    else
      DrawnPrefix(kind, objects, order, n - 1) +
        if order[n - 1] in objects && Draws(kind, objects[order[n - 1]]) then [order[n - 1]] else []
  }

  /** The ids a system draws, in visiting order. */
  function DrawnIn(kind: SystemKind, objects: map<Id, GameObject>, order: seq<Id>): (drawn: seq<Id>)
  {
    DrawnPrefix(kind, objects, order, |order|)
  }

  predicate NoDuplicates(s: seq<Id>)
  {
    forall i, j :: 0 <= i < j < |s| ==> s[i] != s[j]
  }

  /** Among the first n visited, the selected ones are drawn, only they, and none twice. */
  lemma {:induction false} DrawnPrefixComplete(kind: SystemKind, objects: map<Id, GameObject>, order: seq<Id>, n: nat)
    requires NoDuplicates(order) && n <= |order|
    ensures forall j :: 0 <= j < n && order[j] in objects && Draws(kind, objects[order[j]]) ==>
      order[j] in DrawnPrefix(kind, objects, order, n)
    ensures forall id :: id in DrawnPrefix(kind, objects, order, n) ==> id in order[..n]
    ensures NoDuplicates(DrawnPrefix(kind, objects, order, n))
  {
    if n > 0 {
      DrawnPrefixComplete(kind, objects, order, n - 1);
      var prefix := DrawnPrefix(kind, objects, order, n - 1);
      var last := order[n - 1];
      forall id | id in prefix
        ensures id != last
      {
        var j :| 0 <= j < n - 1 && order[..n - 1][j] == id;
        assert order[j] == id;
      }
      assert last !in prefix;
      var drawn := DrawnPrefix(kind, objects, order, n);
      forall id | id in drawn
        ensures id in order[..n]
      {
        if id in prefix {
          var j :| 0 <= j < n - 1 && order[..n - 1][j] == id;
          assert order[..n][j] == id;
        } else {
          assert order[..n][n - 1] == id;
        }
      }
      if last in objects && Draws(kind, objects[last]) {
        assert drawn == prefix + [last];
        forall i, j | 0 <= i < j < |drawn|
          ensures drawn[i] != drawn[j]
        {
          if j == |prefix| {
            assert drawn[i] == prefix[i];
          } else {
            assert drawn[i] == prefix[i] && drawn[j] == prefix[j];
          }
        }
      } else {
        assert drawn == prefix;
      }
    }
  }

  /** Every object the system selects is drawn, and none twice. */
  lemma DrawnInComplete(kind: SystemKind, objects: map<Id, GameObject>, order: seq<Id>)
    requires NoDuplicates(order)
    ensures forall id :: id in order && id in objects && Draws(kind, objects[id]) ==> id in DrawnIn(kind, objects, order)
    ensures forall id :: id in DrawnIn(kind, objects, order) ==> id in order && id in objects && Draws(kind, objects[id])
    ensures NoDuplicates(DrawnIn(kind, objects, order))
  {
    DrawnPrefixComplete(kind, objects, order, |order|);
  }

  // ---------------------------------------------------------------------
  // The loop
  // ---------------------------------------------------------------------

  /** Builds one object's set: the writer gets the uniform slot at binding 0
   *  and the system's images, then allocates from the frame's pool. */
  method WriteObjectSet(kind: SystemKind, o: GameObject, buffer: Handle,
                        layout: Descriptors.SetLayout, pool: Descriptors.DescriptorPool)
    returns (ok: bool, ds: Handle)
    requires HasImages(kind, o) && layout.bindings == SystemLayout(kind) && pool.Valid()
    modifies pool
    ensures pool.Valid()
    ensures ok <==> |old(pool.live)| < pool.maxSets
    ensures !ok ==> ds == NullHandle && pool.live == old(pool.live) && pool.contents == old(pool.contents)
    ensures ok ==> ds != NullHandle && ds !in old(pool.live) && pool.live == old(pool.live) + {ds}
    ensures ok ==> pool.contents == old(pool.contents)[ds := pool.contents[ds]]
    ensures ok ==> Holds(pool.contents[ds], Planned(kind, o, buffer))
  {
    var writer := new Descriptors.DescriptorWriter(layout, pool);
    QueueWrites(kind, o, buffer, writer);
    ghost var p := Planned(kind, o, buffer);
    ghost var pending := writer.writes;
    assert Matches(pending, p);
    ok, ds := writer.Build();
    if ok {
      PlannedFitsLayout(kind, o, buffer);
      StampedMatches(pending, p, ds);
      AppliedHolds(writer.writes, p);
    }
  }

  /** The writeBuffer / writeImage chain of each system, in call order. */
  method QueueWrites(kind: SystemKind, o: GameObject, buffer: Handle, writer: Descriptors.DescriptorWriter)
    requires HasImages(kind, o) && writer.Valid() && writer.writes == []
    requires writer.layout.bindings == SystemLayout(kind)
    modifies writer`writes
    ensures writer.Valid() && Matches(writer.writes, Planned(kind, o, buffer))
  {
    writer.WriteBuffer(0, buffer, o.id);
    match kind {
      case MirrorPlane =>
        writer.WriteImage(1, o.reflectionTexture.value);
      case WaterRender =>
        writer.WriteImage(4, o.reflectionTexture.value);
        writer.WriteImage(5, o.refractionTexture.value);
      case WaterMaps =>
        writer.WriteImage(1, o.dudvMap.value);
        writer.WriteImage(2, o.normalMap.value);
        writer.WriteImage(3, o.depthMap.value);
        writer.WriteImage(4, o.reflectionTexture.value);
        writer.WriteImage(5, o.refractionTexture.value);
      case _ =>
        writer.WriteImage(1, o.diffuseMap.value);
    }
  }

  /** Pending writes carry, in order, the planned bindings and infos. */
  predicate Matches(ws: seq<Descriptors.Write>, p: seq<(nat, Descriptors.Info)>)
  {
    |ws| == |p| && forall k :: 0 <= k < |p| ==> ws[k].dstBinding == p[k].0 && ws[k].info == p[k].1
  }

  lemma StampedMatches(ws: seq<Descriptors.Write>, p: seq<(nat, Descriptors.Info)>, ds: Handle)
    requires Matches(ws, p)
    ensures Matches(Descriptors.Stamped(ws, ds), p)
  {
    forall k | 0 <= k < |p|
      ensures Descriptors.Stamped(ws, ds)[k].dstBinding == p[k].0 && Descriptors.Stamped(ws, ds)[k].info == p[k].1
    {
      Descriptors.StampedAt(ws, ds, k);
    }
  }

  /** Writes that match a plan with distinct bindings leave a fresh set holding the plan. */
  lemma AppliedHolds(ws: seq<Descriptors.Write>, p: seq<(nat, Descriptors.Info)>)
    requires Matches(ws, p)
    requires forall i, j :: 0 <= i < j < |p| ==> p[i].0 != p[j].0
    ensures Holds(Descriptors.Apply(map[], ws), p)
  {
    Descriptors.ApplyDistinct(ws);
    assert Descriptors.Touched(ws) == BindingsOf(p);
  }

  function Min(a: nat, b: nat): nat
  {
    if a <= b then a else b
  }

  /** Build k succeeded iff the pool, which started with `live0`, still had room. */
  predicate Outcomes(live0: set<Handle>, maxSets: nat, sets: seq<Handle>)
  {
    forall k :: 0 <= k < |sets| ==> (sets[k] != NullHandle <==> |live0| + k < maxSets)
  }

  /** The successful builds are new sets, pairwise distinct. */
  predicate FreshSets(live0: set<Handle>, sets: seq<Handle>)
  {
    (forall k :: 0 <= k < |sets| && sets[k] != NullHandle ==> sets[k] !in live0) &&
    (forall j, k :: 0 <= j < k < |sets| && sets[j] != NullHandle ==> sets[j] != sets[k])
  }

  /** Each successful build holds its plan. */
  predicate Holding(contents: map<Handle, map<nat, Descriptors.Info>>, sets: seq<Handle>, plans: seq<seq<(nat, Descriptors.Info)>>)
    requires |sets| == |plans|
  {
    forall k :: 0 <= k < |sets| && sets[k] != NullHandle ==> sets[k] in contents && Holds(contents[sets[k]], plans[k])
  }

  /** The sets live before the builds keep their bindings. */
  predicate Untouched(contents: map<Handle, map<nat, Descriptors.Info>>, live0: set<Handle>,
                      contents0: map<Handle, map<nat, Descriptors.Info>>)
  {
    forall s :: s in live0 ==> s in contents && s in contents0 && contents[s] == contents0[s]
  }

  /** The frame pool after a run of builds, against its state before them. */
  ghost predicate Tracks(pool: Descriptors.DescriptorPool, live0: set<Handle>, contents0: map<Handle, map<nat, Descriptors.Info>>,
                         sets: seq<Handle>, plans: seq<seq<(nat, Descriptors.Info)>>)
    reads pool
  {
    pool.Valid() && |sets| == |plans| &&
    Outcomes(live0, pool.maxSets, sets) &&
    pool.live == live0 + Built(sets) &&
    |pool.live| == Min(|live0| + |sets|, pool.maxSets) &&
    FreshSets(live0, sets) &&
    Holding(pool.contents, sets, plans) &&
    Untouched(pool.contents, live0, contents0)
  }

  /** A further build succeeds iff the pool has room, and then yields a new set. */
  lemma StepOutcomes(live: set<Handle>, maxSets: nat, live0: set<Handle>, sets: seq<Handle>, ok: bool, ds: Handle)
    requires Outcomes(live0, maxSets, sets) && FreshSets(live0, sets)
    requires live == live0 + Built(sets)
    requires |live| == Min(|live0| + |sets|, maxSets)
    requires ok <==> |live| < maxSets
    requires !ok ==> ds == NullHandle
    requires ok ==> ds != NullHandle && ds !in live
    ensures Outcomes(live0, maxSets, sets + [ds]) && FreshSets(live0, sets + [ds])
  {
    var sets' := sets + [ds];
    forall j, k | 0 <= j < k < |sets'| && sets'[j] != NullHandle
      ensures sets'[j] != sets'[k]
    {
      if k == |sets| {
        assert sets'[j] == sets[j] && sets[j] in live;
      } else {
        assert sets'[j] == sets[j] && sets'[k] == sets[k];
      }
    }
    forall k | 0 <= k < |sets'|
      ensures sets'[k] != NullHandle <==> |live0| + k < maxSets
    {
      if k < |sets| {
        assert sets'[k] == sets[k];
      }
    }
  }

  /** The sets a run of builds allocated: its non-null results. */
  function Built(sets: seq<Handle>): (b: set<Handle>)
    ensures forall k :: 0 <= k < |sets| && sets[k] != NullHandle ==> sets[k] in b
  {
    set s | s in sets && s != NullHandle
  }

  lemma BuiltSnoc(sets: seq<Handle>, ds: Handle)
    ensures Built(sets + [ds]) == if ds == NullHandle then Built(sets) else Built(sets) + {ds}
  {
    forall x | x in Built(sets + [ds])
      ensures x in Built(sets) || (x == ds && ds != NullHandle)
    {
      var k :| 0 <= k < |sets + [ds]| && (sets + [ds])[k] == x;
      if k < |sets| {
        assert sets[k] == x;
      }
    }
    assert Built(sets) <= Built(sets + [ds]) by {
      forall x | x in Built(sets) ensures x in Built(sets + [ds]) {
        var k :| 0 <= k < |sets| && sets[k] == x;
        assert (sets + [ds])[k] == x;
      }
    }
    if ds != NullHandle {
      assert (sets + [ds])[|sets|] == ds;
    }
  }

  /** The live sets grow by the new set, if any, and their number follows. */
  lemma StepLive(live: set<Handle>, live': set<Handle>, maxSets: nat, live0: set<Handle>, sets: seq<Handle>, ok: bool, ds: Handle)
    requires live == live0 + Built(sets)
    requires |live| == Min(|live0| + |sets|, maxSets)
    requires ok <==> |live| < maxSets
    requires !ok ==> ds == NullHandle && live' == live
    requires ok ==> ds != NullHandle && ds !in live && live' == live + {ds}
    ensures live' == live0 + Built(sets + [ds])
    ensures |live'| == Min(|live0| + |sets + [ds]|, maxSets)
  {
    BuiltSnoc(sets, ds);
    if ok {
      assert |live'| == |live| + 1;
    }
  }

  /** Earlier sets and the sets live before keep their bindings; the new one holds its plan. */
  lemma StepHolding(live: set<Handle>, contents: map<Handle, map<nat, Descriptors.Info>>,
                    contents': map<Handle, map<nat, Descriptors.Info>>,
                    live0: set<Handle>, contents0: map<Handle, map<nat, Descriptors.Info>>,
                    sets: seq<Handle>, plans: seq<seq<(nat, Descriptors.Info)>>,
                    ok: bool, ds: Handle, plan: seq<(nat, Descriptors.Info)>)
    requires |sets| == |plans| && live == contents.Keys
    requires forall k :: 0 <= k < |sets| && sets[k] != NullHandle ==> sets[k] in live
    requires live0 <= live
    requires Holding(contents, sets, plans) && Untouched(contents, live0, contents0)
    requires !ok ==> ds == NullHandle && contents' == contents
    requires ok ==> ds != NullHandle && ds !in live
    requires ok ==> ds in contents' && contents' == contents[ds := contents'[ds]] && Holds(contents'[ds], plan)
    ensures Holding(contents', sets + [ds], plans + [plan]) && Untouched(contents', live0, contents0)
  {
    var sets', plans' := sets + [ds], plans + [plan];
    forall k | 0 <= k < |sets'| && sets'[k] != NullHandle
      ensures sets'[k] in contents' && Holds(contents'[sets'[k]], plans'[k])
    {
      if k < |sets| {
        assert sets'[k] == sets[k] && plans'[k] == plans[k];
      }
    }
  }

  /** One more object's set: the build and its effect on the tracked pool. */
  method BuildNext(kind: SystemKind, o: GameObject, buffer: Handle, layout: Descriptors.SetLayout,
                   pool: Descriptors.DescriptorPool, ghost live0: set<Handle>,
                   ghost contents0: map<Handle, map<nat, Descriptors.Info>>,
                   ghost sets: seq<Handle>, ghost plans: seq<seq<(nat, Descriptors.Info)>>)
    returns (ds: Handle)
    requires Tracks(pool, live0, contents0, sets, plans)
    requires HasImages(kind, o) && layout.bindings == SystemLayout(kind)
    modifies pool
    ensures Tracks(pool, live0, contents0, sets + [ds], plans + [Planned(kind, o, buffer)])
  {
    ghost var live, contents := pool.live, pool.contents;
    var ok;
    ok, ds := WriteObjectSet(kind, o, buffer, layout, pool);
    assert forall k :: 0 <= k < |sets| && sets[k] != NullHandle ==> sets[k] in live;
    StepOutcomes(live, pool.maxSets, live0, sets, ok, ds);
    StepLive(live, pool.live, pool.maxSets, live0, sets, ok, ds);
    StepHolding(live, contents, pool.contents, live0, contents0, sets, plans, ok, ds, Planned(kind, o, buffer));
  }

  /** The plans of the drawn objects, in drawing order. */
  function PlansFor(kind: SystemKind, objects: map<Id, GameObject>, drawn: seq<Id>, buffer: Handle)
    : (plans: seq<seq<(nat, Descriptors.Info)>>)
    requires forall id :: id in drawn ==> id in objects && HasImages(kind, objects[id])
    ensures |plans| == |drawn|
  {
    if drawn == [] then []
    else
      var n := |drawn| - 1;
      PlansFor(kind, objects, drawn[..n], buffer) + [Planned(kind, objects[drawn[n]], buffer)]
  }

  lemma {:induction false} PlansForAt(kind: SystemKind, objects: map<Id, GameObject>, drawn: seq<Id>, buffer: Handle, k: nat)
    requires forall id :: id in drawn ==> id in objects && HasImages(kind, objects[id])
    requires k < |drawn|
    ensures PlansFor(kind, objects, drawn, buffer)[k] == Planned(kind, objects[drawn[k]], buffer)
  {
    var n := |drawn| - 1;
    if k < n {
      PlansForAt(kind, objects, drawn[..n], buffer, k);
    }
  }

  lemma PlansForSnoc(kind: SystemKind, objects: map<Id, GameObject>, drawn: seq<Id>, id: Id, buffer: Handle)
    requires forall x :: x in drawn + [id] ==> x in objects && HasImages(kind, objects[x])
    ensures PlansFor(kind, objects, drawn + [id], buffer) ==
            PlansFor(kind, objects, drawn, buffer) + [Planned(kind, objects[id], buffer)]
  {
    assert (drawn + [id])[..|drawn|] == drawn;
  }

  lemma ObjectCommandsSnoc(kind: SystemKind, objects: map<Id, GameObject>, drawn: seq<Id>, sets: seq<Handle>, id: Id, ds: Handle)
    requires |drawn| == |sets|
    requires forall x :: x in drawn + [id] ==> x in objects && Drawable(kind, objects[x])
    ensures ObjectCommands(kind, objects, drawn + [id], sets + [ds]) ==
            ObjectCommands(kind, objects, drawn, sets) + ObjectBlock(kind, objects[id], ds)
  {
    assert (drawn + [id])[..|drawn|] == drawn && (sets + [ds])[..|sets|] == sets;
  }

  /** What the tracked facts say about each built set. */
  lemma TrackedHolds(contents: map<Handle, map<nat, Descriptors.Info>>, sets: seq<Handle>,
                     kind: SystemKind, objects: map<Id, GameObject>, drawn: seq<Id>, buffer: Handle)
    requires forall id :: id in drawn ==> id in objects && HasImages(kind, objects[id])
    requires |sets| == |drawn|
    requires Holding(contents, sets, PlansFor(kind, objects, drawn, buffer))
    ensures forall k :: 0 <= k < |sets| && sets[k] != NullHandle ==>
      sets[k] in contents && Holds(contents[sets[k]], Planned(kind, objects[drawn[k]], buffer))
  {
    forall k | 0 <= k < |sets| && sets[k] != NullHandle
      ensures sets[k] in contents && Holds(contents[sets[k]], Planned(kind, objects[drawn[k]], buffer))
    {
      PlansForAt(kind, objects, drawn, buffer, k);
    }
  }

  /** The ids visited before position i. */
  function Visited(order: seq<Id>, i: nat): set<Id>
    requires i <= |order|
  {
    set j | 0 <= j < i :: order[j]
  }

  /** Each id is visited for the first time. */
  lemma FirstVisit(order: seq<Id>, i: nat)
    requires i < |order| && NoDuplicates(order)
    ensures order[i] !in Visited(order, i)
    ensures Visited(order, i + 1) == Visited(order, i) + {order[i]}
  {
  }

  /** Records one selected object: builds its set in the pool and appends its block. */
  method RecordNext(kind: SystemKind, objects: map<Id, GameObject>, id: Id, buffer: Handle,
                    layout: Descriptors.SetLayout, pool: Descriptors.DescriptorPool,
                    commands: seq<Command>, drawn: seq<Id>, sets: seq<Handle>,
                    ghost live0: set<Handle>, ghost contents0: map<Handle, map<nat, Descriptors.Info>>)
    returns (commands': seq<Command>, drawn': seq<Id>, sets': seq<Handle>, ds: Handle)
    requires id in objects && Draws(kind, objects[id]) && Renderable(kind, objects[id])
    requires layout.bindings == SystemLayout(kind) && |sets| == |drawn|
    requires forall x :: x in drawn ==> x in objects && Drawable(kind, objects[x]) && HasImages(kind, objects[x])
    requires commands == ObjectCommands(kind, objects, drawn, sets)
    requires Tracks(pool, live0, contents0, sets, PlansFor(kind, objects, drawn, buffer))
    modifies pool
    ensures drawn' == drawn + [id] && sets' == sets + [ds]
    ensures forall x :: x in drawn' ==> x in objects && Drawable(kind, objects[x]) && HasImages(kind, objects[x])
    ensures commands' == ObjectCommands(kind, objects, drawn', sets')
    ensures Tracks(pool, live0, contents0, sets', PlansFor(kind, objects, drawn', buffer))
  {
    var o := objects[id];
    ds := BuildNext(kind, o, buffer, layout, pool, live0, contents0, sets, PlansFor(kind, objects, drawn, buffer));
    PlansForSnoc(kind, objects, drawn, id, buffer);
    ObjectCommandsSnoc(kind, objects, drawn, sets, id, ds);
    commands' := commands + ObjectBlock(kind, o, ds);
    drawn', sets' := drawn + [id], sets + [ds];
  }

  /** The loop state after visiting the first i entries: the ids drawn so far,
   *  one set per drawn id, the commands recorded for them, and a cache that
   *  only holds ids already visited. */
  predicate Visiting(kind: SystemKind, objects: map<Id, GameObject>, order: seq<Id>, i: nat,
                     cached: map<Id, Handle>, commands: seq<Command>, drawn: seq<Id>, sets: seq<Handle>)
  {
    i <= |order| && drawn == DrawnPrefix(kind, objects, order, i) && |sets| == |drawn| &&
    (forall id :: id in drawn ==> id in objects && Drawable(kind, objects[id]) && HasImages(kind, objects[id])) &&
    commands == ObjectCommands(kind, objects, drawn, sets) &&
    cached.Keys <= Visited(order, i)
  }

  /** Visiting, together with the pool holding what the objects drawn so far planned. */
  ghost predicate Recording(kind: SystemKind, objects: map<Id, GameObject>, order: seq<Id>, i: nat, buffer: Handle,
                            pool: Descriptors.DescriptorPool, live0: set<Handle>, contents0: map<Handle, map<nat, Descriptors.Info>>,
                            cached: map<Id, Handle>, commands: seq<Command>, drawn: seq<Id>, sets: seq<Handle>)
    reads pool
  {
    Visiting(kind, objects, order, i, cached, commands, drawn, sets) &&
    Tracks(pool, live0, contents0, sets, PlansFor(kind, objects, drawn, buffer))
  }

  /** Before the first object nothing is recorded and the pool is as it was. */
  lemma RecordingStarts(kind: SystemKind, objects: map<Id, GameObject>, order: seq<Id>, buffer: Handle,
                        pool: Descriptors.DescriptorPool)
    requires pool.Valid()
    ensures Recording(kind, objects, order, 0, buffer, pool, pool.live, pool.contents, map[], [], [], [])
  {
  }

  /** After the last object, the recording covers the whole visiting order. */
  lemma RecordedAll(kind: SystemKind, objects: map<Id, GameObject>, order: seq<Id>, i: nat, buffer: Handle,
                    pool: Descriptors.DescriptorPool, live0: set<Handle>, contents0: map<Handle, map<nat, Descriptors.Info>>,
                    cached: map<Id, Handle>, commands: seq<Command>, drawn: seq<Id>, sets: seq<Handle>)
    requires i == |order|
    requires Recording(kind, objects, order, i, buffer, pool, live0, contents0, cached, commands, drawn, sets)
    ensures drawn == DrawnIn(kind, objects, order) && |sets| == |drawn|
    ensures forall id :: id in drawn ==> id in objects && Drawable(kind, objects[id]) && HasImages(kind, objects[id])
    ensures commands == ObjectCommands(kind, objects, drawn, sets)
    ensures Tracks(pool, live0, contents0, sets, PlansFor(kind, objects, drawn, buffer))
  {
  }

  /** One iteration of the per-object loop: an object the system selects is
   *  looked up in the cache, which never hits, and recorded. */
  method VisitNext(kind: SystemKind, objects: map<Id, GameObject>, order: seq<Id>, i: nat, buffer: Handle,
                   layout: Descriptors.SetLayout, pool: Descriptors.DescriptorPool, caches: bool,
                   cached: map<Id, Handle>, commands: seq<Command>, drawn: seq<Id>, sets: seq<Handle>,
                   ghost live0: set<Handle>, ghost contents0: map<Handle, map<nat, Descriptors.Info>>)
    returns (cached': map<Id, Handle>, commands': seq<Command>, drawn': seq<Id>, sets': seq<Handle>)
    requires i < |order| && NoDuplicates(order)
    requires order[i] in objects && Renderable(kind, objects[order[i]])
    requires layout.bindings == SystemLayout(kind)
    requires Recording(kind, objects, order, i, buffer, pool, live0, contents0, cached, commands, drawn, sets)
    modifies pool
    ensures Recording(kind, objects, order, i + 1, buffer, pool, live0, contents0, cached', commands', drawn', sets')
  {
    var id := order[i];
    var o := objects[id];
    FirstVisit(order, i);
    if Draws(kind, o) {
      if caches && id in cached {
        assert false;
      }
      var ds;
      commands', drawn', sets', ds := RecordNext(kind, objects, id, buffer, layout, pool, commands, drawn, sets, live0, contents0);
      cached' := if caches then cached[id := ds] else cached;
    } else {
      cached', commands', drawn', sets' := cached, commands, drawn, sets;
    }
  }

  /** The per-object loop of a render call over the object map `objects`, visited
   *  in `order`; `buffer` is the frame's uniform buffer. The systems that cache
   *  look their call-local cache up first; it never hits, because the cache
   *  starts empty and every object is visited once. The result of build is not
   *  checked: a failed allocation binds a null set and the object is still drawn. */
  method RecordObjects(kind: SystemKind, objects: map<Id, GameObject>, order: seq<Id>, buffer: Handle,
                       layout: Descriptors.SetLayout, pool: Descriptors.DescriptorPool)
    returns (commands: seq<Command>, drawn: seq<Id>, sets: seq<Handle>)
    requires NoDuplicates(order)
    requires forall j :: 0 <= j < |order| ==> order[j] in objects && Renderable(kind, objects[order[j]])
    requires layout.bindings == SystemLayout(kind) && pool.Valid()
    modifies pool
    ensures drawn == DrawnIn(kind, objects, order) && |sets| == |drawn|
    ensures forall id :: id in drawn ==> id in objects && Drawable(kind, objects[id]) && HasImages(kind, objects[id])
    ensures commands == ObjectCommands(kind, objects, drawn, sets)
    ensures Tracks(pool, old(pool.live), old(pool.contents), sets, PlansFor(kind, objects, drawn, buffer))
  {
    ghost var live0, contents0 := pool.live, pool.contents;
    commands, drawn, sets := [], [], [];
    var caches := !(kind == WaterRender || kind == WaterMaps);
    var cached: map<Id, Handle> := map[];
    RecordingStarts(kind, objects, order, buffer, pool);
    var i := 0;
    while i < |order|
      invariant i <= |order|
      invariant Recording(kind, objects, order, i, buffer, pool, live0, contents0, cached, commands, drawn, sets)
    {
      cached, commands, drawn, sets := VisitNext(kind, objects, order, i, buffer, layout, pool, caches,
                                                 cached, commands, drawn, sets, live0, contents0);
      i := i + 1;
    }
    RecordedAll(kind, objects, order, i, buffer, pool, live0, contents0, cached, commands, drawn, sets);
  }

  /** One render call: bind the pipeline and the frame's global set at index 0,
   *  then record every selected object with the uniform slot getBufferInfo
   *  gives it in this frame. `order` is the order in which the object map hands
   *  out its entries. */
  method RenderGameObjects(kind: SystemKind, pipeline: Handle, globalSet: Handle, frameIndex: nat,
                           manager: GameObjectManager, order: seq<Id>,
                           layout: Descriptors.SetLayout, pool: Descriptors.DescriptorPool)
    returns (commands: seq<Command>, drawn: seq<Id>, sets: seq<Handle>)
    requires manager.Valid() && frameIndex < MAX_FRAMES_IN_FLIGHT
    requires Enumerates(order, manager.gameObjects)
    requires forall id :: id in manager.gameObjects ==> Renderable(kind, manager.gameObjects[id])
    requires layout.bindings == SystemLayout(kind) && pool.Valid()
    modifies pool
    ensures pool.Valid()
    ensures drawn == DrawnIn(kind, manager.gameObjects, order) && |sets| == |drawn|
    ensures forall id :: id in drawn ==>
      id in manager.gameObjects && Drawable(kind, manager.gameObjects[id]) && HasImages(kind, manager.gameObjects[id])
    ensures commands == [BindPipeline(pipeline), BindDescriptorSet(0, globalSet)] +
                        ObjectCommands(kind, manager.gameObjects, drawn, sets)
    ensures forall k :: 0 <= k < |sets| ==> (sets[k] != NullHandle <==> |old(pool.live)| + k < pool.maxSets)
    ensures pool.live == old(pool.live) + Built(sets)
    ensures |pool.live| == Min(|old(pool.live)| + |drawn|, pool.maxSets)
    ensures forall j, k :: 0 <= j < k < |sets| && sets[j] != NullHandle ==> sets[j] != sets[k]
    ensures forall k :: 0 <= k < |sets| && sets[k] != NullHandle ==>
      sets[k] !in old(pool.live) && sets[k] in pool.contents &&
      Holds(pool.contents[sets[k]], Planned(kind, manager.gameObjects[drawn[k]], manager.uboBuffers[frameIndex]))
    ensures forall s :: s in old(pool.live) ==> s in pool.contents && pool.contents[s] == old(pool.contents)[s]
  {
    var objects := manager.gameObjects;
    var buffer := manager.GetBufferInfoForGameObject(frameIndex, 0).buffer;
    var recorded;
    recorded, drawn, sets := RecordObjects(kind, objects, order, buffer, layout, pool);
    commands := [BindPipeline(pipeline), BindDescriptorSet(0, globalSet)] + recorded;
    TrackedHolds(pool.contents, sets, kind, objects, drawn, buffer);
  }
}
