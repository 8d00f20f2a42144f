/**
 * Scene objects of src/framework/core/nile_game_object.hpp: the game object
 * record with its components and flags, and the manager that hands out
 * sequential ids and keeps the id-keyed object map.
 *
 * A NileGameObject lives inside the manager's map and callers change it
 * through the reference createGameObject returns; here an object is a value
 * and a change is written back with GameObjectManager.Update.
 */
module GameObjects {
  import opened Common
  import Mesh
  import Descriptors

  type Id = nat

  const MAX_GAME_OBJECTS: nat := 1000

  /** TransformComponent: translation, scale (default 1), rotation. */
  datatype Transform = Transform(translation: Vec3, scale: Vec3, rotation: Vec3)

  /** TransformComponent2d: a 3-component translation, a 2D scale and an angle. */
  datatype Transform2d = Transform2d(translation: Vec3, scale: Vec2, rotation: real)

  datatype RigidBody2d = RigidBody2d(velocity: Vec2, mass: real)

  datatype ParticleComponent = ParticleComponent(position: Vec2, velocity: Vec2, color: Vec4, life: real)

  datatype BallComponent = BallComponent(stuck: bool, radius: real)

  datatype WaterComponent = WaterComponent(rippleIntensity: real)

  datatype PointLightComponent = PointLightComponent(lightIntensity: real)

  /** NileGameObject. Texture pointers are optional handles (None is nullptr);
   *  the reflection and refraction targets are offscreen images. */
  datatype GameObject = GameObject(
    id: Id,
    color: Vec3,
    isSolid: bool, isMirror: bool, isParticle: bool, destroyed: bool, isVectorField: bool,
    isHidden: bool,
    transform: Transform, transform2d: Transform2d, rigidBody2d: RigidBody2d,
    model: Option<Mesh.Model>,
    diffuseMap: Option<Handle>, normalMap: Option<Handle>, depthMap: Option<Handle>, dudvMap: Option<Handle>,
    reflectionTexture: Option<Handle>, refractionTexture: Option<Handle>,
    pointLight: Option<PointLightComponent>, water: Option<WaterComponent>,
    ball: Option<BallComponent>, particle: Option<ParticleComponent>)
  {
    function GetId(): Id { id }

    function GetIsHidden(): bool { isHidden }

    /** setIsHidden changes the hidden flag and nothing else. */
    function SetIsHidden(hidden: bool): (o: GameObject)
      ensures o.GetIsHidden() == hidden && o.GetId() == GetId()
      ensures o.(isHidden := isHidden) == this
    {
      this.(isHidden := hidden)
    }
  }

  /** The object the private constructor produces, before the manager sets its textures. */
  function Constructed(id: Id): (o: GameObject)
  {
    GameObject(
      id, Zero3,
      false, false, false, false, false,
      false,
      Transform(Zero3, Vec3(1.0, 1.0, 1.0), Zero3),
      Transform2d(Zero3, Vec2(1.0, 1.0), 0.0),
      RigidBody2d(Zero2, 1.0),
      None,
      None, None, None, None,
      None, None,
      None, None, None, None)
  }

  /** A freshly created object: its own id, every flag false, black, the
   *  default components (unit scales, no rotation or translation, at rest with
   *  mass 1), no model, the default texture in the diffuse, normal and depth
   *  slots, the default dudv map, and no optional component. */
  predicate IsNewObject(o: GameObject, id: Id, textureDefault: Option<Handle>, dudvDefault: Option<Handle>)
  {
    o.id == id && o.color == Zero3 &&
    o.transform == Transform(Zero3, Vec3(1.0, 1.0, 1.0), Zero3) &&
    o.transform2d == Transform2d(Zero3, Vec2(1.0, 1.0), 0.0) &&
    o.rigidBody2d == RigidBody2d(Zero2, 1.0) &&
    !o.isSolid && !o.isMirror && !o.isParticle && !o.destroyed && !o.isVectorField && !o.isHidden &&
    o.diffuseMap == textureDefault && o.normalMap == textureDefault && o.depthMap == textureDefault &&
    o.dudvMap == dudvDefault &&
    o.model.None? && o.reflectionTexture.None? && o.refractionTexture.None? &&
    o.pointLight.None? && o.water.None? && o.ball.None? && o.particle.None?
  }

  class GameObjectManager {
    var gameObjects: map<Id, GameObject>
    /** One uniform buffer per frame in flight. */
    const uboBuffers: seq<Handle>
    var currentId: Id
    const textureDefault: Option<Handle>
    const dudvDefault: Option<Handle>

    /** Every object is stored under its own id, and every id was handed out already. */
    ghost predicate Valid()
      reads this
    {
      |uboBuffers| == MAX_FRAMES_IN_FLIGHT && currentId <= MAX_GAME_OBJECTS &&
      forall id :: id in gameObjects ==> id < currentId && gameObjects[id].id == id
    }

    constructor (uboBuffers: seq<Handle>, textureDefault: Option<Handle>, dudvDefault: Option<Handle>)
      requires |uboBuffers| == MAX_FRAMES_IN_FLIGHT
      ensures Valid() && gameObjects == map[] && currentId == 0
      ensures this.uboBuffers == uboBuffers
      ensures this.textureDefault == textureDefault && this.dudvDefault == dudvDefault
    {
      gameObjects := map[];
      this.uboBuffers := uboBuffers;
      currentId := 0;
      this.textureDefault := textureDefault;
      this.dudvDefault := dudvDefault;
    }

    /** Creating past MAX_GAME_OBJECTS objects is a failed assertion. The new object
     *  gets the next id and is inserted under it; no existing entry changes. */
    method CreateGameObject() returns (id: Id)
      requires Valid() && currentId < MAX_GAME_OBJECTS
      modifies this
      ensures Valid()
      ensures id == old(currentId) && currentId == old(currentId) + 1
      ensures id !in old(gameObjects) && id in gameObjects
      ensures IsNewObject(gameObjects[id], id, textureDefault, dudvDefault)
      ensures gameObjects == old(gameObjects)[id := gameObjects[id]]
      ensures |gameObjects| == |old(gameObjects)| + 1
    {
      id := currentId;
      currentId := currentId + 1;
      var gameObject := Constructed(id).(
        diffuseMap := textureDefault, normalMap := textureDefault,
        depthMap := textureDefault, dudvMap := dudvDefault);
      gameObjects := gameObjects[id := gameObject];
    }

    /** makeParticle: a created object that carries a particle component. */
    method MakeParticle(life: real, position: Vec2, velocity: Vec2, color: Vec4) returns (id: Id)
      requires Valid() && currentId < MAX_GAME_OBJECTS
      modifies this
      ensures Valid()
      ensures id == old(currentId) && currentId == old(currentId) + 1
      ensures id !in old(gameObjects) && id in gameObjects
      ensures gameObjects == old(gameObjects)[id := gameObjects[id]]
      ensures gameObjects[id].particle == Some(ParticleComponent(position, velocity, color, life))
      ensures gameObjects[id].isParticle && gameObjects[id].id == id
      ensures !gameObjects[id].isHidden && !gameObjects[id].destroyed && !gameObjects[id].isMirror
      ensures IsNewObject(gameObjects[id].(isParticle := false, particle := None), id, textureDefault, dudvDefault)
    {
      id := CreateGameObject();
      var particle := gameObjects[id].(
        particle := Some(ParticleComponent(position, velocity, color, life)), isParticle := true);
      gameObjects := gameObjects[id := particle];
    }

    /** Writes back changes a caller made through an object's reference; the id is fixed. */
    method Update(o: GameObject)
      requires Valid() && o.id in gameObjects
      modifies this`gameObjects
      ensures Valid()
      ensures gameObjects == old(gameObjects)[o.id := o]
    {
      gameObjects := gameObjects[o.id := o];
    }

    /** The uniform-buffer slot of an object: element `id` of the frame's buffer. */
    function GetBufferInfoForGameObject(frameIndex: nat, id: Id): (info: Descriptors.Info)
      requires Valid() && frameIndex < MAX_FRAMES_IN_FLIGHT
      reads this
      ensures info.BufferInfo? && info.buffer == uboBuffers[frameIndex] && info.element == id
    {
      Descriptors.BufferInfo(uboBuffers[frameIndex], id)
    }
  }

  /** Two objects never share a uniform-buffer slot within a frame. */
  lemma BufferSlotsDistinct(m: GameObjectManager, frameIndex: nat, a: Id, b: Id)
    requires m.Valid() && frameIndex < MAX_FRAMES_IN_FLIGHT && a != b
    ensures m.GetBufferInfoForGameObject(frameIndex, a) != m.GetBufferInfoForGameObject(frameIndex, b)
  {
  }

  /** Ids first, first + 1, ..., first + n - 1. */
  function Ids(first: Id, n: nat): (ids: seq<Id>)
    ensures |ids| == n && forall k :: 0 <= k < n ==> ids[k] == first + k
  {
    seq(n, k requires 0 <= k < n => first + k)
  }

  /** Every object of `before` is still in `after`, unchanged. */
  predicate Kept(before: map<Id, GameObject>, after: map<Id, GameObject>)
  {
    forall id :: id in before ==> id in after && after[id] == before[id]
  }

  lemma KeptTrans(a: map<Id, GameObject>, b: map<Id, GameObject>, c: map<Id, GameObject>)
    requires Kept(a, b) && Kept(b, c)
    ensures Kept(a, c)
  {
  }

  /** Consecutive runs of ids join into one run, after any prefix. */
  lemma IdsAppend(prefix: seq<Id>, first: Id, a: nat, b: nat)
    ensures prefix + Ids(first, a) + Ids(first + a, b) == prefix + Ids(first, a + b)
  {
    assert Ids(first, a) + Ids(first + a, b) == Ids(first, a + b);
  }
}
