/**
 * Types shared by every part of the nile model: opaque Vulkan handles,
 * API result codes, small vectors over exact reals, optional values and
 * the abstract command trace that recording into a command buffer produces.
 */
module Common {

  /** A Vulkan handle (VkBuffer, VkDescriptorSet, ...). 0 plays VK_NULL_HANDLE. */
  type Handle = nat

  const NullHandle: Handle := 0

  /** Number of frames the renderer keeps in flight (nile_swap_chain.hpp). */
  const MAX_FRAMES_IN_FLIGHT: nat := 2

  datatype Option<T> = None | Some(value: T)

  /** A thrown std::runtime_error becomes Err carrying its message. */
  datatype Result<T> = Ok(value: T) | Err(message: string)

  /** The VkResult codes the engine distinguishes; every other code is Failure. */
  datatype VkResult = Success | SuboptimalKhr | ErrorOutOfDateKhr | Failure(code: int)

  datatype Vec2 = Vec2(x: real, y: real)
  {
    function Plus(o: Vec2): Vec2 { Vec2(x + o.x, y + o.y) }
    function Minus(o: Vec2): Vec2 { Vec2(x - o.x, y - o.y) }
    function Scaled(k: real): Vec2 { Vec2(k * x, k * y) }
    function Dot(o: Vec2): real { x * o.x + y * o.y }
    /** The squared Euclidean length; lengths are compared through it. */
    function LengthSquared(): real { x * x + y * y }
  }

  datatype Vec3 = Vec3(x: real, y: real, z: real)
  {
    function Plus(o: Vec3): Vec3 { Vec3(x + o.x, y + o.y, z + o.z) }
  }

  datatype Vec4 = Vec4(x: real, y: real, z: real, w: real)

  const Zero2: Vec2 := Vec2(0.0, 0.0)
  const Zero3: Vec3 := Vec3(0.0, 0.0, 0.0)

  /** Contents of a push-constant block, one shape per render system. Matrices
   *  built from a transform are kept as the transform they come from. */
  datatype PushData =
    // the model matrix and the normal matrix, both from one transform
    | Push3D(modelTranslation: Vec3, modelScale: Vec3, modelRotation: Vec3)
    // the mirror's block: the model matrix alone
    | PushMirror(mirrorTranslation: Vec3, mirrorScale: Vec3, mirrorRotation: Vec3)
    | Push2D(planeScale: Vec2, planeRotation: real, offset: Vec2, tint: Vec3)
    | PushWater(waterPosition: Vec4)
    | PushParticle(particlePosition: Vec2, particleColor: Vec4)

  /** What recording into a command buffer leaves behind, in order. */
  datatype Command =
    | BindPipeline(pipeline: Handle)
    | BindDescriptorSet(firstSet: nat, descriptorSet: Handle)
    | PushConstants(data: PushData)
    | BindVertexBuffer(buffer: Handle)
    | BindIndexBuffer(buffer: Handle)
    | Draw(vertexCount: nat)
    | DrawIndexed(indexCount: nat)
    | BeginRenderPass(renderPass: Handle, width: nat, height: nat)
    | EndRenderPass

  /** Keys listed once each: how a program visits an unordered map. */
  predicate Enumerates<K, V>(order: seq<K>, m: map<K, V>)
  {
    (forall i, j :: 0 <= i < j < |order| ==> order[i] != order[j]) &&
    (forall i :: 0 <= i < |order| ==> order[i] in m) &&
    (forall k :: k in m ==> k in order)
  }
}
