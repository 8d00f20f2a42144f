/**
 * The frame orchestrator of src/framework/core/nile_renderer.cpp: a state
 * machine over `isFrameStarted` and `currentFrameIndex` that acquires an
 * image, hands out the frame's command buffer, brackets the swap-chain and
 * offscreen render passes, and presents.
 *
 * Swap-chain acquire, submit and present, command-buffer begin/end and swap
 * chain rebuilding are GPU work: their results arrive as parameters.
 * A thrown std::runtime_error is an Err result; the state reached before the
 * throw is kept, as in the source.
 */
module Renderer {
  import opened Common
  import OffScreen
  import Descriptors

  datatype Extent = Extent(width: nat, height: nat)

  /** What the renderer uses of a NileSwapChain. */
  datatype SwapChain = SwapChain(renderPass: Handle, imageFormat: nat, depthFormat: nat, extent: Extent)

  /** compareSwapFormats: the depth and the image format both agree. */
  predicate CompareSwapFormats(a: SwapChain, b: SwapChain)
  {
    b.depthFormat == a.depthFormat && b.imageFormat == a.imageFormat
  }

  /** The frame index after `completed` frames, stepping as endFrame does. */
  function FrameIndexAfter(completed: nat): (i: nat)
    ensures i < MAX_FRAMES_IN_FLIGHT
  {
    if completed == 0 then 0 else (FrameIndexAfter(completed - 1) + 1) % MAX_FRAMES_IN_FLIGHT
  }

  /** The frame index counts completed frames modulo MAX_FRAMES_IN_FLIGHT. */
  lemma {:induction false} FrameIndexCountsFrames(completed: nat)
    ensures FrameIndexAfter(completed) == completed % MAX_FRAMES_IN_FLIGHT
  {
    if completed > 0 {
      FrameIndexCountsFrames(completed - 1);
    }
  }

  /** Two consecutive frames never share a frame slot, and every second frame reuses one. */
  lemma {:induction false} FrameSlotsAlternate(completed: nat)
    ensures FrameIndexAfter(completed + 1) != FrameIndexAfter(completed)
    ensures FrameIndexAfter(completed + 2) == FrameIndexAfter(completed)
  {
    FrameIndexCountsFrames(completed);
    FrameIndexCountsFrames(completed + 1);
    FrameIndexCountsFrames(completed + 2);
  }

  /** The part of NileWindow the renderer consults: the resize flag its
   *  framebuffer-size callback raises. */
  class Window {
    var framebufferResized: bool

    constructor ()
      ensures !framebufferResized
    {
      framebufferResized := false;
    }

    method FramebufferResizeCallback()
      modifies this
      ensures framebufferResized
    {
      framebufferResized := true;
    }

    method ResetWindowResizedFlag()
      modifies this
      ensures !framebufferResized
    {
      framebufferResized := false;
    }
  }

  class NileRenderer {
    const window: Window
    var swapChain: Option<SwapChain>
    var commandBuffers: seq<Handle>
    var currentImageIndex: nat
    var currentFrameIndex: nat
    var isFrameStarted: bool
    var offScreen: Option<OffScreen.OffScreenTarget>
    /** Frames that went through a completed endFrame. */
    ghost var completedFrames: nat

    ghost predicate Valid()
      reads this
    {
      swapChain.Some? &&
      |commandBuffers| == MAX_FRAMES_IN_FLIGHT &&
      (forall i :: 0 <= i < |commandBuffers| ==> commandBuffers[i] != NullHandle) &&
      currentFrameIndex == FrameIndexAfter(completedFrames)
    }

    /** The first half of the NileRenderer constructor: recreateSwapChain with no
     *  previous chain installs `first`. Command buffers come from Create. */
    constructor Init(window: Window, first: SwapChain)
      ensures this.window == window && swapChain == Some(first) && commandBuffers == []
      ensures currentFrameIndex == 0 && !isFrameStarted && offScreen.None? && completedFrames == 0
    {
      this.window := window;
      swapChain := None;
      commandBuffers := [];
      currentImageIndex := 0;
      currentFrameIndex := 0;
      isFrameStarted := false;
      offScreen := None;
      completedFrames := 0;
      new;
      var _ := RecreateSwapChain(first);
    }

    /** The NileRenderer constructor: install the first swap chain, then allocate
     *  the command buffers, which throws if vkAllocateCommandBuffers fails. */
    static method Create(window: Window, first: SwapChain, allocation: VkResult, buffers: seq<Handle>)
      returns (r: Result<NileRenderer>)
      requires |buffers| == MAX_FRAMES_IN_FLIGHT && forall i :: 0 <= i < |buffers| ==> buffers[i] != NullHandle
      ensures r.Ok? <==> allocation == Success
      ensures r.Err? ==> r.message == "failed to allocate command buffers!"
      ensures r.Ok? ==> fresh(r.value) && r.value.Valid() && r.value.window == window
      ensures r.Ok? ==> r.value.currentFrameIndex == 0 && !r.value.isFrameStarted
      ensures r.Ok? ==> r.value.swapChain == Some(first) && r.value.commandBuffers == buffers
    {
      var renderer := new NileRenderer.Init(window, first);
      var allocResult := renderer.CreateCommandBuffers(allocation, buffers);
      if allocResult.Err? {
        return Err(allocResult.message);
      }
      r := Ok(renderer);
    }

    /** Sizes the command-buffer list to MAX_FRAMES_IN_FLIGHT and fills it. */
    method CreateCommandBuffers(allocation: VkResult, buffers: seq<Handle>) returns (r: Result<()>)
      requires |buffers| == MAX_FRAMES_IN_FLIGHT
      modifies this`commandBuffers
      ensures r.Ok? <==> allocation == Success
      ensures r.Err? ==> r.message == "failed to allocate command buffers!"
      ensures r.Ok? ==> commandBuffers == buffers
      ensures |commandBuffers| == MAX_FRAMES_IN_FLIGHT
    {
      commandBuffers := seq(MAX_FRAMES_IN_FLIGHT, _ => NullHandle);
      if allocation != Success {
        return Err("failed to allocate command buffers!");
      }
      commandBuffers := buffers;
      r := Ok(());
    }

    /** recreateSwapChain after the zero-extent wait: `rebuilt` is the new chain.
     *  With a previous chain the new one is installed first, then a change of
     *  image or depth format throws. */
    method RecreateSwapChain(rebuilt: SwapChain) returns (r: Result<()>)
      modifies this`swapChain
      ensures swapChain == Some(rebuilt)
      ensures r.Err? <==> old(swapChain).Some? && !CompareSwapFormats(old(swapChain).value, rebuilt)
      ensures r.Err? ==> r.message == "Swap chain image(or depth) format has changed!"
    {
      if swapChain.None? {
        swapChain := Some(rebuilt);
        return Ok(());
      }
      var oldSwapChain := swapChain.value;
      swapChain := Some(rebuilt);
      if !CompareSwapFormats(oldSwapChain, rebuilt) {
        return Err("Swap chain image(or depth) format has changed!");
      }
      r := Ok(());
    }

    method CreateOffScreen(target: OffScreen.OffScreenTarget)
      modifies this`offScreen
      ensures offScreen == Some(target)
    {
      offScreen := Some(target);
    }

    function GetCurrentCommandBuffer(): (cb: Handle)
      requires Valid() && isFrameStarted
      reads this
      ensures cb != NullHandle && cb in commandBuffers
      ensures cb == commandBuffers[completedFrames % MAX_FRAMES_IN_FLIGHT]
    {
      FrameIndexCountsFrames(completedFrames);
      commandBuffers[currentFrameIndex]
    }

    function GetFrameIndex(): (i: nat)
      requires Valid() && isFrameStarted
      reads this
      ensures i < MAX_FRAMES_IN_FLIGHT && i == completedFrames % MAX_FRAMES_IN_FLIGHT
    {
      FrameIndexCountsFrames(completedFrames);
      currentFrameIndex
    }

    /** beginFrame. `acquire` is what acquireNextImage returns, `rebuilt` the
     *  chain a rebuild would produce and `beginRecording` what
     *  vkBeginCommandBuffer returns. A null command buffer means: no frame. */
    method BeginFrame(acquire: VkResult, imageIndex: nat, rebuilt: SwapChain, beginRecording: VkResult)
      returns (r: Result<Handle>)
      requires Valid() && !isFrameStarted
      modifies this`swapChain, this`isFrameStarted, this`currentImageIndex
      ensures Valid() && currentFrameIndex == old(currentFrameIndex) && completedFrames == old(completedFrames)
      ensures acquire == ErrorOutOfDateKhr ==>
        !isFrameStarted && swapChain == Some(rebuilt) &&
        r == (if CompareSwapFormats(old(swapChain).value, rebuilt) then Ok(NullHandle)
              else Err("Swap chain image(or depth) format has changed!"))
      ensures acquire.Failure? ==>
        !isFrameStarted && swapChain == old(swapChain) && r == Err("failed to acquire swap chain image!")
      ensures acquire == Success || acquire == SuboptimalKhr ==>
        isFrameStarted && swapChain == old(swapChain) &&
        r == (if beginRecording == Success then Ok(commandBuffers[currentFrameIndex])
              else Err("failed to begin recording command buffer!"))
    {
      currentImageIndex := imageIndex;
      if acquire == ErrorOutOfDateKhr {
        var rebuild := RecreateSwapChain(rebuilt);
        if rebuild.Err? {
          return Err(rebuild.message);
        }
        return Ok(NullHandle);
      }
      if acquire != Success && acquire != SuboptimalKhr {
        return Err("failed to acquire swap chain image!");
      }
      isFrameStarted := true;
      var commandBuffer := GetCurrentCommandBuffer();
      if beginRecording != Success {
        return Err("failed to begin recording command buffer!");
      }
      r := Ok(commandBuffer);
    }

    /** endFrame. `endRecording` is what vkEndCommandBuffer returns and `submit`
     *  what submitCommandBuffers returns. A completed call ends the frame and
     *  advances the frame index; any throw leaves the frame in progress. */
    method EndFrame(endRecording: VkResult, submit: VkResult, rebuilt: SwapChain) returns (r: Result<()>)
      requires Valid() && isFrameStarted
      modifies this`swapChain, this`isFrameStarted, this`currentFrameIndex, this`completedFrames, window
      ensures Valid()
      ensures endRecording != Success ==>
        r == Err("failed to record command buffer!") && isFrameStarted &&
        swapChain == old(swapChain) && completedFrames == old(completedFrames) &&
        window.framebufferResized == old(window.framebufferResized)
      ensures endRecording == Success && (submit == ErrorOutOfDateKhr || submit == SuboptimalKhr || old(window.framebufferResized)) ==>
        !window.framebufferResized && swapChain == Some(rebuilt) &&
        (r.Err? <==> !CompareSwapFormats(old(swapChain).value, rebuilt))
      ensures endRecording == Success && submit != ErrorOutOfDateKhr && submit != SuboptimalKhr &&
              !old(window.framebufferResized) && submit != Success ==>
        r == Err("failed to present swap chain image!") && isFrameStarted && swapChain == old(swapChain) &&
        !window.framebufferResized
      ensures endRecording == Success && submit == Success && !old(window.framebufferResized) ==>
        r == Ok(()) && swapChain == old(swapChain) && !window.framebufferResized
      ensures r.Ok? <==> !isFrameStarted
      ensures r.Ok? ==>
        completedFrames == old(completedFrames) + 1 &&
        currentFrameIndex == (old(currentFrameIndex) + 1) % MAX_FRAMES_IN_FLIGHT
      ensures r.Err? ==> completedFrames == old(completedFrames) && currentFrameIndex == old(currentFrameIndex)
    {
      if endRecording != Success {
        return Err("failed to record command buffer!");
      }
      if submit == ErrorOutOfDateKhr || submit == SuboptimalKhr || window.framebufferResized {
        window.ResetWindowResizedFlag();
        var rebuild := RecreateSwapChain(rebuilt);
        if rebuild.Err? {
          return Err(rebuild.message);
        }
      } else if submit != Success {
        return Err("failed to present swap chain image!");
      }
      isFrameStarted := false;
      currentFrameIndex := (currentFrameIndex + 1) % MAX_FRAMES_IN_FLIGHT;
      completedFrames := completedFrames + 1;
      r := Ok(());
    }

    /** beginSwapChainRenderPass: only inside a frame, on that frame's command
     *  buffer; the pass covers the whole swap-chain extent. */
    function BeginSwapChainRenderPass(commandBuffer: Handle): (c: Command)
      requires Valid() && isFrameStarted && commandBuffer == GetCurrentCommandBuffer()
      reads this
      ensures c.BeginRenderPass? && c.renderPass == swapChain.value.renderPass
      ensures c.width == swapChain.value.extent.width && c.height == swapChain.value.extent.height
    {
      BeginRenderPass(swapChain.value.renderPass, swapChain.value.extent.width, swapChain.value.extent.height)
    }

    /** endSwapChainRenderPass: the command itself carries nothing; what the
     *  engine checks is the precondition (a frame is in progress and the buffer
     *  is the frame's own). */
    function EndSwapChainRenderPass(commandBuffer: Handle): (c: Command)
      requires Valid() && isFrameStarted && commandBuffer == GetCurrentCommandBuffer()
      reads this
      ensures c == EndRenderPass
    {
      EndRenderPass
    }

    /** beginOffScreenRenderPass: as for the swap chain, but the pass is the
     *  offscreen target's and covers its fixed size. */
    function BeginOffScreenRenderPass(commandBuffer: Handle): (c: Command)
      requires Valid() && isFrameStarted && commandBuffer == GetCurrentCommandBuffer()
      requires offScreen.Some? && offScreen.value.width == OffScreen.FB_DIM == offScreen.value.height
      reads this
      ensures c.BeginRenderPass? && c.renderPass == offScreen.value.renderPass
      ensures c.width == OffScreen.FB_DIM && c.height == OffScreen.FB_DIM
    {
      BeginRenderPass(offScreen.value.renderPass, offScreen.value.width, offScreen.value.height)
    }

    /** endOffScreenRenderPass: as for the swap chain, the contract is the
     *  precondition the engine asserts. */
    function EndOffScreenRenderPass(commandBuffer: Handle): (c: Command)
      requires Valid() && isFrameStarted && commandBuffer == GetCurrentCommandBuffer()
      reads this
      ensures c == EndRenderPass
    {
      EndRenderPass
    }
  }

  /** The two passes of a mirror frame: the offscreen pass that renders the
   *  reflection, then the swap-chain pass. */
  function MirrorPasses(renderer: NileRenderer, commandBuffer: Handle): (recorded: seq<Command>)
    requires renderer.Valid() && renderer.isFrameStarted && commandBuffer == renderer.GetCurrentCommandBuffer()
    requires renderer.offScreen.Some? && renderer.offScreen.value.Valid()
    reads renderer, renderer.offScreen.value
    ensures |recorded| == 4 && recorded[1] == EndRenderPass && recorded[3] == EndRenderPass
    ensures recorded[0] == BeginRenderPass(renderer.offScreen.value.renderPass, OffScreen.FB_DIM, OffScreen.FB_DIM)
    ensures recorded[2].BeginRenderPass? && recorded[2].renderPass == renderer.swapChain.value.renderPass
  {
    [renderer.BeginOffScreenRenderPass(commandBuffer), renderer.EndOffScreenRenderPass(commandBuffer),
     renderer.BeginSwapChainRenderPass(commandBuffer), renderer.EndSwapChainRenderPass(commandBuffer)]
  }

  /** The body of a started mirror frame: reset this frame slot's pool, record
   *  the offscreen and the swap-chain pass, end the frame. */
  method MirrorPassesAndEnd(renderer: NileRenderer, framePools: seq<Descriptors.DescriptorPool>, commandBuffer: Handle,
                            rebuilt: SwapChain, endRecording: VkResult, submit: VkResult)
    returns (r: Result<bool>, recorded: seq<Command>)
    requires renderer.Valid() && renderer.isFrameStarted && commandBuffer == renderer.GetCurrentCommandBuffer()
    requires renderer.offScreen.Some? && renderer.offScreen.value.Valid()
    requires |framePools| == MAX_FRAMES_IN_FLIGHT && forall p :: p in framePools ==> p.Valid()
    modifies renderer, renderer.window, framePools
    ensures renderer.Valid() && renderer.offScreen == old(renderer.offScreen)
    ensures r.Ok? ==> r.value && !renderer.isFrameStarted && renderer.completedFrames == old(renderer.completedFrames) + 1
    ensures framePools[old(renderer.currentFrameIndex)].live == {}
    ensures r.Ok? <==> !renderer.isFrameStarted
    ensures endRecording == Success && submit == Success && !old(renderer.window.framebufferResized) ==> r == Ok(true)
    ensures endRecording != Success ==> r == Err("failed to record command buffer!")
    ensures recorded == old(MirrorPasses(renderer, commandBuffer))
  {
    var frameIndex := renderer.GetFrameIndex();
    framePools[frameIndex].ResetPool();
    recorded := MirrorPasses(renderer, commandBuffer);
    var ended := renderer.EndFrame(endRecording, submit, rebuilt);
    r := if ended.Err? then Err(ended.message) else Ok(true);
  }

  /** One iteration of the mirror sample's frame loop, reduced to the renderer
   *  calls and the pool reset: begin the frame; if it started, reset that
   *  slot's pool, run the offscreen pass, run the swap-chain pass, end the
   *  frame. Every precondition of every call is met along the way. */
  method MirrorFrame(renderer: NileRenderer, framePools: seq<Descriptors.DescriptorPool>,
                     acquire: VkResult, imageIndex: nat, rebuilt: SwapChain, beginRecording: VkResult,
                     endRecording: VkResult, submit: VkResult)
    returns (r: Result<bool>, recorded: seq<Command>)
    requires renderer.Valid() && !renderer.isFrameStarted
    requires renderer.offScreen.Some? && renderer.offScreen.value.Valid()
    requires |framePools| == MAX_FRAMES_IN_FLIGHT && forall p :: p in framePools ==> p.Valid()
    modifies renderer, renderer.window, framePools
    ensures renderer.Valid() && renderer.offScreen == old(renderer.offScreen)
    ensures r == Ok(false) ==> !renderer.isFrameStarted && renderer.completedFrames == old(renderer.completedFrames) && recorded == []
    ensures acquire == ErrorOutOfDateKhr ==>
      recorded == [] && renderer.swapChain == Some(rebuilt) &&
      r == (if CompareSwapFormats(old(renderer.swapChain).value, rebuilt) then Ok(false)
            else Err("Swap chain image(or depth) format has changed!"))
    ensures acquire.Failure? ==> r == Err("failed to acquire swap chain image!") && recorded == []
    ensures (acquire == Success || acquire == SuboptimalKhr) && beginRecording != Success ==>
      r == Err("failed to begin recording command buffer!") && renderer.isFrameStarted && recorded == []
    ensures (acquire == Success || acquire == SuboptimalKhr) && beginRecording == Success ==>
      framePools[old(renderer.currentFrameIndex)].live == {} && |recorded| == 4
    ensures (acquire == Success || acquire == SuboptimalKhr) && beginRecording == Success &&
            endRecording == Success && submit == Success && !old(renderer.window.framebufferResized) ==>
      r == Ok(true)
    ensures r == Ok(true) ==>
      !renderer.isFrameStarted &&
      renderer.completedFrames == old(renderer.completedFrames) + 1 &&
      framePools[old(renderer.currentFrameIndex)].live == {} &&
      |recorded| == 4 && recorded[1] == EndRenderPass && recorded[3] == EndRenderPass &&
      recorded[0] == BeginRenderPass(old(renderer.offScreen).value.renderPass, OffScreen.FB_DIM, OffScreen.FB_DIM) &&
      recorded[2].BeginRenderPass? && recorded[2].renderPass == old(renderer.swapChain).value.renderPass
  {
    var begun := renderer.BeginFrame(acquire, imageIndex, rebuilt, beginRecording);
    if begun.Err? {
      return Err(begun.message), [];
    }
    if begun.value == NullHandle {
      return Ok(false), [];
    }
    r, recorded := MirrorPassesAndEnd(renderer, framePools, begun.value, rebuilt, endRecording, submit);
  }
}
