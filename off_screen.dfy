/**
 * The offscreen render target of src/framework/core/nile_off_screen.cpp: a
 * fixed-size colour + depth framebuffer whose colour image is later sampled
 * (the mirror's reflection). Modelled here: its dimensions, the image info
 * handed to descriptor sets, the two-way layout transition, and the fixed
 * render-pass and framebuffer configuration.
 */
module OffScreen {
  import opened Common

  /** FB_DIM: width and height of the offscreen framebuffer. */
  const FB_DIM: nat := 512

  datatype Format = Rgba8Unorm | OtherFormat(code: nat)

  /** FB_COLOR_FORMAT. */
  const FB_COLOR_FORMAT: Format := Rgba8Unorm

  datatype ImageLayout = Undefined | ColorAttachmentOptimal | DepthStencilAttachmentOptimal | ShaderReadOnlyOptimal

  datatype Access = NoAccess | ColorAttachmentRead | ColorAttachmentWrite
                  | DepthStencilAttachmentRead | DepthStencilAttachmentWrite | ShaderRead | MemoryRead

  datatype Stage = FragmentShader | ColorAttachmentOutput | EarlyFragmentTests | LateFragmentTests

  /** VkDescriptorImageInfo. */
  datatype ImageInfo = ImageInfo(imageLayout: ImageLayout, imageView: Handle, sampler: Handle)

  /** An image memory barrier on the colour image, with the stages of the
   *  vkCmdPipelineBarrier call that carries it. */
  datatype Barrier = Barrier(
    image: Handle, oldLayout: ImageLayout, newLayout: ImageLayout,
    srcAccess: Access, dstAccess: Access, srcStage: Stage, dstStage: Stage)

  /** The same barrier run backwards: layouts, access masks and stages swapped. */
  function Reversed(b: Barrier): Barrier
  {
    Barrier(b.image, b.newLayout, b.oldLayout, b.dstAccess, b.srcAccess, b.dstStage, b.srcStage)
  }

  /** The barrier transitionLayout records for t = 1 (after rendering, before
   *  sampling) and for t = 0 (back to rendering). No other t is handled. */
  function TransitionBarrier(image: Handle, t: nat): (b: Barrier)
    requires t == 0 || t == 1
    ensures b.image == image && b.oldLayout != b.newLayout
    ensures t == 1 ==> b.oldLayout == ColorAttachmentOptimal && b.newLayout == ShaderReadOnlyOptimal
    ensures t == 0 ==> b.oldLayout == ShaderReadOnlyOptimal && b.newLayout == ColorAttachmentOptimal
  {
    if t == 1 then
      Barrier(image, ColorAttachmentOptimal, ShaderReadOnlyOptimal,
              ColorAttachmentWrite, ShaderRead, ColorAttachmentOutput, FragmentShader)
    else
      Barrier(image, ShaderReadOnlyOptimal, ColorAttachmentOptimal,
              ShaderRead, ColorAttachmentWrite, FragmentShader, ColorAttachmentOutput)
  }

  /** The two transitions are exact inverses of each other. */
  lemma TransitionsAreInverse(image: Handle)
    ensures TransitionBarrier(image, 0) == Reversed(TransitionBarrier(image, 1))
    ensures TransitionBarrier(image, 1) == Reversed(TransitionBarrier(image, 0))
  {
  }

  // ---------------------------------------------------------------------
  // Fixed render-pass and framebuffer configuration
  // ---------------------------------------------------------------------

  datatype AttachmentDescription = AttachmentDescription(
    format: Format, clearOnLoad: bool, storeOnEnd: bool, initialLayout: ImageLayout, finalLayout: ImageLayout)

  datatype AttachmentReference = AttachmentReference(attachment: nat, layout: ImageLayout)

  datatype SubpassRef = External | SubpassIndex(index: nat)

  datatype Dependency = Dependency(
    srcSubpass: SubpassRef, dstSubpass: SubpassRef,
    srcStages: set<Stage>, dstStages: set<Stage>,
    srcAccess: set<Access>, dstAccess: set<Access>, byRegion: bool)

  /** VkRenderPassCreateInfo with its single subpass. */
  datatype RenderPassInfo = RenderPassInfo(
    attachments: seq<AttachmentDescription>,
    colorRef: AttachmentReference, depthRef: AttachmentReference,
    dependencies: seq<Dependency>)

  const AttachmentStages: set<Stage> := {ColorAttachmentOutput, EarlyFragmentTests, LateFragmentTests}
  const AttachmentAccess: set<Access> :=
    {ColorAttachmentRead, ColorAttachmentWrite, DepthStencilAttachmentRead, DepthStencilAttachmentWrite}

  /** createRenderPass; `depthFormat` is what the device reports as its depth format. */
  function OffscreenRenderPass(depthFormat: Format): RenderPassInfo
  {
    var depthAttachment := AttachmentDescription(depthFormat, true, false, Undefined, DepthStencilAttachmentOptimal);
    var colorAttachment := AttachmentDescription(FB_COLOR_FORMAT, true, true, Undefined, ShaderReadOnlyOptimal);
    RenderPassInfo(
      [colorAttachment, depthAttachment],
      AttachmentReference(0, ColorAttachmentOptimal),
      AttachmentReference(1, DepthStencilAttachmentOptimal),
      [ Dependency(External, SubpassIndex(0), {FragmentShader}, AttachmentStages, {NoAccess}, AttachmentAccess, true),
        Dependency(SubpassIndex(0), External, AttachmentStages, {FragmentShader}, AttachmentAccess, {MemoryRead}, true)])
  }

  /** Attachment views handed to vkCreateFramebuffer, in order. */
  function FramebufferAttachments(colorView: Handle, depthView: Handle): (views: seq<Handle>)
    ensures |views| == 2 && views[0] == colorView && views[1] == depthView
  {
    [colorView, depthView]
  }

  /** The colour reference, the attachment array and the framebuffer agree on
   *  colour = 0 and depth = 1; the colour image ends the pass ready to be
   *  sampled and the depth image as a depth attachment; the two dependencies
   *  lead from outside into the subpass and back out, ordering earlier
   *  fragment-shader reads before the pass and its writes before later ones. */
  lemma RenderPassConfiguration(depthFormat: Format, colorView: Handle, depthView: Handle)
    ensures var rp := OffscreenRenderPass(depthFormat);
      var views := FramebufferAttachments(colorView, depthView);
      |rp.attachments| == |views| == 2 &&
      rp.colorRef.attachment < 2 && rp.depthRef.attachment < 2 &&
      rp.attachments[rp.colorRef.attachment].format == FB_COLOR_FORMAT &&
      views[rp.colorRef.attachment] == colorView &&
      rp.attachments[rp.depthRef.attachment].format == depthFormat &&
      views[rp.depthRef.attachment] == depthView &&
      rp.attachments[rp.colorRef.attachment].initialLayout == Undefined &&
      rp.attachments[rp.colorRef.attachment].finalLayout == ShaderReadOnlyOptimal &&
      rp.attachments[rp.depthRef.attachment].finalLayout == DepthStencilAttachmentOptimal &&
      |rp.dependencies| == 2 &&
      rp.dependencies[0].srcSubpass == External && rp.dependencies[0].dstSubpass == SubpassIndex(0) &&
      rp.dependencies[1].srcSubpass == SubpassIndex(0) && rp.dependencies[1].dstSubpass == External &&
      FragmentShader in rp.dependencies[0].srcStages && FragmentShader in rp.dependencies[1].dstStages
  {
  }

  // ---------------------------------------------------------------------
  // The target object
  // ---------------------------------------------------------------------

  class OffScreenTarget {
    const width: nat
    const height: nat
    const colorImage: Handle
    const colorView: Handle
    const depthView: Handle
    const sampler: Handle
    const renderPass: Handle
    const frameBuffer: Handle
    /** offscreenPass.descriptor: what getImageInfo hands to descriptor writes. */
    var descriptor: ImageInfo

    /** The descriptor always names the colour view and the sampler. */
    ghost predicate Valid()
      reads this
    {
      width == FB_DIM && height == FB_DIM &&
      descriptor.imageView == colorView && descriptor.sampler == sampler
    }

    /** The constructor: FB_DIM x FB_DIM, then init, which ends with updateDescriptor.
     *  The handles are those the Vulkan creation calls return. */
    constructor (colorImage: Handle, colorView: Handle, depthView: Handle,
                 sampler: Handle, renderPass: Handle, frameBuffer: Handle)
      ensures Valid()
      ensures this.colorImage == colorImage && this.colorView == colorView && this.depthView == depthView
      ensures this.sampler == sampler && this.renderPass == renderPass && this.frameBuffer == frameBuffer
      ensures descriptor == ImageInfo(ShaderReadOnlyOptimal, colorView, sampler)
    {
      width := FB_DIM;
      height := FB_DIM;
      this.colorImage := colorImage;
      this.colorView := colorView;
      this.depthView := depthView;
      this.sampler := sampler;
      this.renderPass := renderPass;
      this.frameBuffer := frameBuffer;
      descriptor := ImageInfo(ShaderReadOnlyOptimal, colorView, sampler);
    }

    method UpdateDescriptor()
      requires width == FB_DIM && height == FB_DIM
      modifies this`descriptor
      ensures Valid()
      ensures descriptor == ImageInfo(ShaderReadOnlyOptimal, colorView, sampler)
    {
      descriptor := ImageInfo(ShaderReadOnlyOptimal, colorView, sampler);
    }

    function GetImageInfo(): ImageInfo
      reads this
    {
      descriptor
    }

    /** transitionLayout: records the barrier for `t` and makes the descriptor
     *  advertise the layout the image is moved to. */
    method TransitionLayout(t: nat) returns (b: Barrier)
      requires Valid() && (t == 0 || t == 1)
      modifies this`descriptor
      ensures Valid()
      ensures b == TransitionBarrier(colorImage, t)
      ensures descriptor == old(descriptor).(imageLayout := b.newLayout)
    {
      b := TransitionBarrier(colorImage, t);
      if t == 1 {
        descriptor := descriptor.(imageLayout := ShaderReadOnlyOptimal);
      } else {
        descriptor := descriptor.(imageLayout := ColorAttachmentOptimal);
      }
    }
  }

  /** NileOffScreen's constructor with init's creation calls as outcomes, in the
   *  order init makes them: colour view, sampler, depth view, render pass,
   *  framebuffer. The first that fails throws its message and nothing is built. */
  method Create(colorImage: Handle,
                vkColorView: VkResult, colorView: Handle,
                vkSampler: VkResult, sampler: Handle,
                vkDepthView: VkResult, depthView: Handle,
                vkRenderPass: VkResult, renderPass: Handle,
                vkFramebuffer: VkResult, frameBuffer: Handle)
    returns (r: Result<OffScreenTarget>)
    ensures r.Ok? <==> vkColorView == Success && vkSampler == Success && vkDepthView == Success &&
                       vkRenderPass == Success && vkFramebuffer == Success
    ensures vkColorView != Success ==> r == Err("failed to create texture image view!")
    ensures vkColorView == Success && vkSampler != Success ==> r == Err("failed to create texture sampler!")
    ensures vkColorView == Success && vkSampler == Success && vkDepthView != Success ==>
      r == Err("failed to create texture image view!")
    ensures vkColorView == Success && vkSampler == Success && vkDepthView == Success && vkRenderPass != Success ==>
      r == Err("failed to create render pass!")
    ensures (vkColorView == Success && vkSampler == Success && vkDepthView == Success && vkRenderPass == Success &&
             vkFramebuffer != Success) ==> r == Err("failed to create framebuffer!")
    ensures r.Ok? ==> fresh(r.value) && r.value.Valid()
    ensures r.Ok? ==> r.value.colorImage == colorImage && r.value.colorView == colorView && r.value.depthView == depthView
    ensures r.Ok? ==> r.value.sampler == sampler && r.value.renderPass == renderPass && r.value.frameBuffer == frameBuffer
    ensures r.Ok? ==> r.value.descriptor == ImageInfo(ShaderReadOnlyOptimal, colorView, sampler)
  {
    if vkColorView != Success {
      return Err("failed to create texture image view!");
    }
    if vkSampler != Success {
      return Err("failed to create texture sampler!");
    }
    if vkDepthView != Success {
      return Err("failed to create texture image view!");
    }
    if vkRenderPass != Success {
      return Err("failed to create render pass!");
    }
    if vkFramebuffer != Success {
      return Err("failed to create framebuffer!");
    }
    var target := new OffScreenTarget(colorImage, colorView, depthView, sampler, renderPass, frameBuffer);
    r := Ok(target);
  }

  /** After the offscreen pass the colour image is already in the layout the
   *  descriptor advertises from construction on: the render pass's final layout
   *  performs the transition that transitionLayout(1) would record. */
  lemma PassLeavesImageSampleable(depthFormat: Format, colorImage: Handle)
    ensures OffscreenRenderPass(depthFormat).attachments[0].finalLayout == TransitionBarrier(colorImage, 1).newLayout
  {
  }
}
