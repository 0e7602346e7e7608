/** The frame loop of `Vulkan::Application`, with every Vulkan object
    replaced by what the decisions depend on: whether a device and a
    swapchain exist, the swapchain's image count, the sizes of the
    frame-dependent collections, the current frame slot, the resize flag and
    the two wireframe settings. The results of acquiring, submitting and
    presenting are inputs. */
module Application {
  import opened Common
  import opened VulkanTypes
  import VulkanInstance

  /** The swapchain as far as the loop sees it: how many image views it has
      and the present mode it was built with. */
  datatype SwapChain = SwapChain(imageCount: nat, presentMode: PresentMode)

  datatype AppState = AppState(
    presentMode: PresentMode,          // `presentMode_`, fixed at construction
    deviceSet: bool,                   // `device_` is not null
    swapChain: Option<SwapChain>,      // `swapChain_`
    pipelineWireFrame: Option<bool>,   // `graphicsPipeline_->IsWireFrame()`, None without a pipeline
    imageAvailableSemaphores: nat,     // sizes of the frame-dependent collections
    renderFinishedSemaphores: nat,
    inFlightFences: nat,
    framebuffers: nat,
    commandBuffers: nat,
    currentFrame: nat,                 // `currentFrame_`
    framebufferResized: bool,          // `framebufferResized_`
    isWireFrame: bool)                 // `isWireFrame_`, the wireframe setting asked for
  {
    /** `HasSwapChain()`. */
    predicate HasSwapChain() {
      swapChain.Some?
    }
  }

  /** No frame-dependent object exists. */
  predicate FrameSetEmpty(s: AppState) {
    && !s.HasSwapChain() && s.pipelineWireFrame.None?
    && s.imageAvailableSemaphores == 0 && s.renderFinishedSemaphores == 0 && s.inFlightFences == 0
    && s.framebuffers == 0 && s.commandBuffers == 0
  }

  /** The frame-dependent set is complete for a swapchain of `n` images built
      with the application's present mode: one of each per image. */
  predicate FrameSetSized(s: AppState, n: nat) {
    && s.swapChain == Some(SwapChain(n, s.presentMode)) && s.pipelineWireFrame.Some?
    && s.imageAvailableSemaphores == n && s.renderFinishedSemaphores == n && s.inFlightFences == n
    && s.framebuffers == n && s.commandBuffers == n
  }

  /** The state the loop keeps between frames: a device, a complete
      frame-dependent set, and a current frame slot that indexes it. */
  predicate Valid(s: AppState) {
    && s.deviceSet && s.swapChain.Some?
    && FrameSetSized(s, s.swapChain.value.imageCount)
    && s.currentFrame < s.inFlightFences
  }

  datatype AppError =
    | InstanceFailed(error: VulkanInstance.InstanceError)
    | DeviceAlreadySet   // "physical device has already been set"
    | DeviceNotSet       // "physical device has not been set"

  /** The layers the constructor passes to the instance. */
  function ValidationLayersFor(enableValidation: bool): (r: seq<string>)
    ensures enableValidation <==> |r| > 0
    ensures enableValidation ==> r == [KhronosValidationLayer]
  {
    if enableValidation then [KhronosValidationLayer] else []
  }

  /** The `Application` constructor: the instance is built with the chosen
      layers; a fresh application has no device, no frame-dependent objects,
      frame slot 0, no pending resize and wireframe off. */
  function NewApplication(presentMode: PresentMode, enableValidation: bool, env: VulkanInstance.Environment)
    : (r: Result<AppState, AppError>)
    ensures r.Err? <==> VulkanInstance.CreateInstance(env, ValidationLayersFor(enableValidation)).Err?
    ensures r.Err? ==> r.error == InstanceFailed(VulkanInstance.CreateInstance(env, ValidationLayersFor(enableValidation)).error)
    ensures r.Ok? ==>
      && r.value.presentMode == presentMode
      && !r.value.deviceSet && FrameSetEmpty(r.value)
      && r.value.currentFrame == 0 && !r.value.isWireFrame && !r.value.framebufferResized
  {
    match VulkanInstance.CreateInstance(env, ValidationLayersFor(enableValidation))
    case Err(e) => Err(InstanceFailed(e))
    case Ok(_) => Ok(AppState(presentMode, false, None, None, 0, 0, 0, 0, 0, 0, false, false))
  }

  /** `CreateSwapChain`: a swapchain of `imageCount` images with the fixed
      present mode; one image-available semaphore, one render-finished
      semaphore, one fence and one framebuffer appended per image view; a
      pipeline for the requested wireframe setting; as many command buffers
      as framebuffers. */
  function CreateSwapChain(s: AppState, imageCount: nat): (r: AppState)
    requires s.deviceSet
    ensures r.HasSwapChain() && r.swapChain.value == SwapChain(imageCount, s.presentMode)
    ensures r.pipelineWireFrame == Some(s.isWireFrame)
    ensures r.commandBuffers == r.framebuffers
    ensures FrameSetEmpty(s) ==> FrameSetSized(r, imageCount)
    ensures r.currentFrame == s.currentFrame && r.framebufferResized == s.framebufferResized
    ensures r.presentMode == s.presentMode && r.deviceSet && r.isWireFrame == s.isWireFrame
  {
    var framebuffers := s.framebuffers + imageCount;
    s.(swapChain := Some(SwapChain(imageCount, s.presentMode)),
       imageAvailableSemaphores := s.imageAvailableSemaphores + imageCount,
       renderFinishedSemaphores := s.renderFinishedSemaphores + imageCount,
       inFlightFences := s.inFlightFences + imageCount,
       pipelineWireFrame := Some(s.isWireFrame),
       framebuffers := framebuffers,
       commandBuffers := framebuffers)
  }

  /** `DeleteSwapChain`: every frame-dependent object goes, nothing else
      changes. */
  function DeleteSwapChain(s: AppState): (r: AppState)
    ensures FrameSetEmpty(r)
    ensures r.deviceSet == s.deviceSet && r.currentFrame == s.currentFrame
    ensures r.framebufferResized == s.framebufferResized && r.isWireFrame == s.isWireFrame
    ensures r.presentMode == s.presentMode
  {
    s.(swapChain := None, pipelineWireFrame := None,
       imageAvailableSemaphores := 0, renderFinishedSemaphores := 0, inFlightFences := 0,
       framebuffers := 0, commandBuffers := 0)
  }

  /** `RecreateSwapChain` (waiting for the device to go idle is left out):
      the whole frame-dependent set is rebuilt for the new image count,
      while the frame slot and the resize flag are kept as they are. */
  function RecreateSwapChain(s: AppState, imageCount: nat): (r: AppState)
    requires s.deviceSet
    ensures FrameSetSized(r, imageCount)
    ensures r.pipelineWireFrame == Some(s.isWireFrame)
    ensures r.currentFrame == s.currentFrame && r.framebufferResized == s.framebufferResized
    ensures r.presentMode == s.presentMode && r.deviceSet && r.isWireFrame == s.isWireFrame
  {
    CreateSwapChain(DeleteSwapChain(s), imageCount)
  }

  /** A rebuild does not depend on the frame-dependent set it replaces. */
  lemma RecreateForgetsOldFrameSet(s: AppState, t: AppState, imageCount: nat)
    requires s.deviceSet && t.deviceSet
    requires s.presentMode == t.presentMode && s.currentFrame == t.currentFrame
    requires s.framebufferResized == t.framebufferResized && s.isWireFrame == t.isWireFrame
    ensures RecreateSwapChain(s, imageCount) == RecreateSwapChain(t, imageCount)
  {
  }

  /** `SetPhysicalDevice`: allowed once; creates the device (and command
      pool) and the first swapchain of `imageCount` images. */
  function SetPhysicalDevice(s: AppState, imageCount: nat): (r: Result<AppState, AppError>)
    ensures r.Err? <==> s.deviceSet
    ensures r.Err? ==> r.error == DeviceAlreadySet
    ensures r.Ok? ==> r.value.deviceSet && r.value.HasSwapChain()
    ensures r.Ok? ==>
      && r.value.currentFrame == s.currentFrame && r.value.framebufferResized == s.framebufferResized
      && r.value.isWireFrame == s.isWireFrame && r.value.presentMode == s.presentMode
      && r.value.pipelineWireFrame == Some(s.isWireFrame)
    ensures r.Ok? && FrameSetEmpty(s) ==> FrameSetSized(r.value, imageCount)
  {
    if s.deviceSet then Err(DeviceAlreadySet)
    else Ok(CreateSwapChain(s.(deviceSet := true), imageCount))
  }

  /** A second `SetPhysicalDevice` always fails. */
  lemma SetPhysicalDeviceIsOneShot(s: AppState, n: nat, m: nat)
    requires SetPhysicalDevice(s, n).Ok?
    ensures SetPhysicalDevice(SetPhysicalDevice(s, n).value, m) == Err(DeviceAlreadySet)
  {
  }

  /** The part of `Run` before the window loop: a device must be set, and
      the frame slot restarts at 0. */
  function Run(s: AppState): (r: Result<AppState, AppError>)
    ensures r.Err? <==> !s.deviceSet
    ensures r.Err? ==> r.error == DeviceNotSet
    ensures r.Ok? ==> r.value == s.(currentFrame := 0)
  {
    if !s.deviceSet then Err(DeviceNotSet) else Ok(s.(currentFrame := 0))
  }

  /** `OnFramebufferSize`: only records that a resize is pending. */
  function OnFramebufferSize(s: AppState, width: int, height: int): (r: AppState)
    ensures r.framebufferResized
    ensures r.(framebufferResized := s.framebufferResized) == s
  {
    s.(framebufferResized := true)
  }

  /** A fresh application, given a device whose swapchain has at least one
      image and then run, is in a state the frame loop can start from. */
  lemma StartupReachesValidState(presentMode: PresentMode, enableValidation: bool,
                                 env: VulkanInstance.Environment, imageCount: nat)
    requires NewApplication(presentMode, enableValidation, env).Ok?
    requires imageCount > 0
    ensures var app := NewApplication(presentMode, enableValidation, env).value;
      && SetPhysicalDevice(app, imageCount).Ok?
      && Run(SetPhysicalDevice(app, imageCount).value).Ok?
      && Valid(Run(SetPhysicalDevice(app, imageCount).value).value)
  {
  }

  // ---------------------------------------------------------------------
  // DrawFrame

  /** What the Vulkan calls of one frame report: the acquire result and the
      image index it returns, the submit and present results, and the image
      count of the swapchain a rebuild in this frame would create. */
  datatype FrameInput = FrameInput(
    acquireResult: VkResult,
    imageIndex: nat,
    submitResult: VkResult,
    presentResult: VkResult,
    rebuiltImageCount: nat)

  /** The steps of one frame in order. Synchronisation objects are named by
      frame slot, command buffers and framebuffers by image index. */
  datatype Action =
    | WaitFence(slot: nat)
    | Acquire(slot: nat)                     // waits on nothing, signals image-available[slot]
    | Record(image: nat)                     // command buffer and framebuffer of the image
    | ResetFence(slot: nat)
    | Submit(image: nat, slot: nat)          // command buffer[image]; semaphores and fence of slot
    | Present(image: nat, slot: nat)         // waits on render-finished[slot]
    | Rebuild

  datatype FrameError =
    | AcquireFailed(result: VkResult)   // "failed to acquire next image"
    | SubmitFailed(result: VkResult)    // `Check` on `vkQueueSubmit`
    | PresentFailed(result: VkResult)   // "failed to present next image"

  datatype FrameOutcome = Recreated | Advanced | Failed(error: FrameError)

  datatype FrameStep = FrameStep(state: AppState, trace: seq<Action>, outcome: FrameOutcome)

  /** The acquired image may be rendered. */
  predicate Usable(result: VkResult) {
    result == Success || result == SuboptimalKhr
  }

  /** The frame is abandoned for a rebuild straight after acquiring. */
  predicate RebuildAtAcquire(s: AppState, input: FrameInput)
    requires s.pipelineWireFrame.Some?
  {
    input.acquireResult == ErrorOutOfDateKhr || s.isWireFrame != s.pipelineWireFrame.value
  }

  /** What `DrawFrame` needs to index its collections. */
  predicate CanDraw(s: AppState) {
    && s.deviceSet && s.swapChain.Some? && s.pipelineWireFrame.Some?
    && s.currentFrame < s.inFlightFences
    && s.currentFrame < s.imageAvailableSemaphores
    && s.currentFrame < s.renderFinishedSemaphores
  }

  /** The acquired index is a valid command-buffer and framebuffer index
      whenever the frame goes on to render. */
  predicate ImageIndexFits(s: AppState, input: FrameInput)
    requires s.pipelineWireFrame.Some?
  {
    !RebuildAtAcquire(s, input) && Usable(input.acquireResult) ==>
      input.imageIndex < s.commandBuffers && input.imageIndex < s.framebuffers
  }

  /** `DrawFrame`. */
  function DrawFrame(s: AppState, input: FrameInput): (r: FrameStep)
    requires CanDraw(s) && ImageIndexFits(s, input)
    ensures |r.trace| >= 2 && r.trace[0] == WaitFence(s.currentFrame) && r.trace[1] == Acquire(s.currentFrame)
    ensures r.outcome == Recreated <==>
      || RebuildAtAcquire(s, input)
      || (&& Usable(input.acquireResult) && input.submitResult == Success
          && (input.presentResult == ErrorOutOfDateKhr || input.presentResult == SuboptimalKhr
              || s.framebufferResized))
    ensures r.outcome == Failed(AcquireFailed(input.acquireResult)) <==>
      !RebuildAtAcquire(s, input) && !Usable(input.acquireResult)
    ensures r.outcome == Failed(SubmitFailed(input.submitResult)) <==>
      !RebuildAtAcquire(s, input) && Usable(input.acquireResult) && input.submitResult != Success
    ensures r.outcome == Failed(PresentFailed(input.presentResult)) <==>
      && !RebuildAtAcquire(s, input) && Usable(input.acquireResult) && input.submitResult == Success
      && !s.framebufferResized
      && input.presentResult !in {Success, ErrorOutOfDateKhr, SuboptimalKhr}
    ensures r.outcome == Advanced <==>
      && !RebuildAtAcquire(s, input) && Usable(input.acquireResult) && input.submitResult == Success
      && !s.framebufferResized && input.presentResult == Success
    ensures r.outcome == Recreated ==>
      && FrameSetSized(r.state, input.rebuiltImageCount)
      && r.state.pipelineWireFrame == Some(s.isWireFrame)
      && r.state.currentFrame == s.currentFrame
      && r.state.deviceSet && r.state.presentMode == s.presentMode && r.state.isWireFrame == s.isWireFrame
      && r.trace[|r.trace| - 1] == Rebuild
      && (RebuildAtAcquire(s, input) ==>
            r.state.framebufferResized == s.framebufferResized && |r.trace| == 3)
      && (!RebuildAtAcquire(s, input) ==> !r.state.framebufferResized)
    ensures r.outcome == Advanced ==>
      && r.state == s.(currentFrame := (s.currentFrame + 1) % s.inFlightFences)
      && r.state.currentFrame < s.inFlightFences
    ensures r.outcome.Failed? ==> r.state == s
  {
    var f := s.currentFrame;
    var i := input.imageIndex;
    if RebuildAtAcquire(s, input) then
      FrameStep(RecreateSwapChain(s, input.rebuiltImageCount), [WaitFence(f), Acquire(f), Rebuild], Recreated)
    else if !Usable(input.acquireResult) then
      FrameStep(s, [WaitFence(f), Acquire(f)], Failed(AcquireFailed(input.acquireResult)))
    else if input.submitResult != Success then
      FrameStep(s, [WaitFence(f), Acquire(f), Record(i), ResetFence(f), Submit(i, f)],
                Failed(SubmitFailed(input.submitResult)))
    else
      PresentFrame(s, input)
  }

  /** The presenting half of `DrawFrame`, reached once the frame has been
      submitted. */
  function PresentFrame(s: AppState, input: FrameInput): (r: FrameStep)
    requires CanDraw(s) && ImageIndexFits(s, input)
    requires !RebuildAtAcquire(s, input) && Usable(input.acquireResult) && input.submitResult == Success
    ensures 6 <= |r.trace| <= 7
    ensures r.trace[..6] == [WaitFence(s.currentFrame), Acquire(s.currentFrame), Record(input.imageIndex),
                             ResetFence(s.currentFrame), Submit(input.imageIndex, s.currentFrame),
                             Present(input.imageIndex, s.currentFrame)]
    ensures r.outcome == Recreated <==>
      input.presentResult == ErrorOutOfDateKhr || input.presentResult == SuboptimalKhr || s.framebufferResized
    ensures r.outcome == Advanced <==> input.presentResult == Success && !s.framebufferResized
    ensures r.outcome.Failed? <==>
      !s.framebufferResized && input.presentResult !in {Success, ErrorOutOfDateKhr, SuboptimalKhr}
    ensures r.outcome == Recreated ==>
      && FrameSetSized(r.state, input.rebuiltImageCount)
      && !r.state.framebufferResized
      && r.state.pipelineWireFrame == Some(s.isWireFrame) && r.state.currentFrame == s.currentFrame
      && r.state.deviceSet && r.state.presentMode == s.presentMode && r.state.isWireFrame == s.isWireFrame
      && r.trace == r.trace[..6] + [Rebuild]
    ensures r.outcome != Recreated ==> |r.trace| == 6
    ensures r.outcome.Failed? ==> r.state == s && r.outcome.error == PresentFailed(input.presentResult)
    ensures r.outcome == Advanced ==> r.state == s.(currentFrame := (s.currentFrame + 1) % s.inFlightFences)
  {
    var f := s.currentFrame;
    var i := input.imageIndex;
    var presented := [WaitFence(f), Acquire(f), Record(i), ResetFence(f), Submit(i, f), Present(i, f)];
    if input.presentResult == ErrorOutOfDateKhr || input.presentResult == SuboptimalKhr || s.framebufferResized then
      FrameStep(RecreateSwapChain(s.(framebufferResized := false), input.rebuiltImageCount),
                presented + [Rebuild], Recreated)
    else if input.presentResult != Success then
      FrameStep(s, presented, Failed(PresentFailed(input.presentResult)))
    else
      FrameStep(s.(currentFrame := (f + 1) % s.inFlightFences), presented, Advanced)
  }

  /** The order of one frame's steps: the slot's fence is reset only when
      an image was acquired for rendering, and the reset is immediately
      followed by the submit that signals it again, so a frame that gives
      up before the reset leaves the fence signalled (a failed submit, in
      contrast, leaves it reset); rendering uses the
      acquired image's command buffer; a rebuild is the last step. */
  lemma DrawFrameStepOrder(s: AppState, input: FrameInput)
    requires CanDraw(s) && ImageIndexFits(s, input)
    ensures var r := DrawFrame(s, input);
      && (ResetFence(s.currentFrame) in r.trace <==> !RebuildAtAcquire(s, input) && Usable(input.acquireResult))
      && (forall k :: 0 <= k < |r.trace| && r.trace[k].ResetFence? ==>
            && r.trace[k].slot == s.currentFrame
            && k + 1 < |r.trace| && r.trace[k + 1] == Submit(input.imageIndex, s.currentFrame))
      && (forall k :: 0 <= k < |r.trace| && r.trace[k].Record? ==> r.trace[k] == Record(input.imageIndex))
      && (Rebuild in r.trace <==> r.outcome == Recreated)
      && (r.outcome == Recreated ==> r.trace[|r.trace| - 1] == Rebuild)
  {
    var r := DrawFrame(s, input);
    var f := s.currentFrame;
    var i := input.imageIndex;
    if RebuildAtAcquire(s, input) {
      assert r.trace == [WaitFence(f), Acquire(f), Rebuild];
    } else if !Usable(input.acquireResult) {
      assert r.trace == [WaitFence(f), Acquire(f)];
    } else if input.submitResult != Success {
      assert r.trace == [WaitFence(f), Acquire(f), Record(i), ResetFence(f), Submit(i, f)];
    } else {
      var t := [WaitFence(f), Acquire(f), Record(i), ResetFence(f), Submit(i, f), Present(i, f)];
      assert r.trace == t || r.trace == t + [Rebuild];
    }
  }

  /** In a valid state every index the acquire can return fits. */
  lemma ValidStateCanDraw(s: AppState, input: FrameInput)
    requires Valid(s) && input.imageIndex < s.swapChain.value.imageCount
    ensures CanDraw(s) && ImageIndexFits(s, input)
  {
  }

  /** One frame keeps the loop's invariant, except after a rebuild: the
      frame slot is not reset, so it still indexes the new fences exactly
      when the new swapchain has more images than the slot number. */
  lemma DrawFrameKeepsFrameSlotInRange(s: AppState, input: FrameInput)
    requires Valid(s) && input.imageIndex < s.swapChain.value.imageCount
    ensures CanDraw(s) && ImageIndexFits(s, input)
    ensures var r := DrawFrame(s, input);
      && (r.outcome != Recreated ==> Valid(r.state))
      && (r.outcome == Recreated ==> (Valid(r.state) <==> s.currentFrame < input.rebuiltImageCount))
  {
    ValidStateCanDraw(s, input);
  }

  /** A three-image swapchain drawing from slot 2 that is rebuilt with two
      images leaves slot 2 pointing past the new fences: the next frame
      cannot index them. */
  lemma ShrinkingRebuildStrandsFrameSlot()
    ensures
      var s := AppState(Fifo, true, Some(SwapChain(3, Fifo)), Some(false), 3, 3, 3, 3, 3, 2, false, false);
      var input := FrameInput(ErrorOutOfDateKhr, 0, Success, Success, 2);
      && Valid(s)
      && DrawFrame(s, input).outcome == Recreated
      && DrawFrame(s, input).state.currentFrame == 2
      && !CanDraw(DrawFrame(s, input).state)
  {
    var s := AppState(Fifo, true, Some(SwapChain(3, Fifo)), Some(false), 3, 3, 3, 3, 3, 2, false, false);
    var input := FrameInput(ErrorOutOfDateKhr, 0, Success, Success, 2);
    assert Valid(s) && CanDraw(s);
    assert RebuildAtAcquire(s, input);
    RebuildBelowSlotStrandsIt(s, input);
  }

  /** A rebuild to no more images than the current slot number keeps the
      slot, which then indexes past the new fences. */
  lemma RebuildBelowSlotStrandsIt(s: AppState, input: FrameInput)
    requires CanDraw(s) && ImageIndexFits(s, input)
    requires RebuildAtAcquire(s, input) && input.rebuiltImageCount <= s.currentFrame
    ensures var r := DrawFrame(s, input);
      && r.outcome == Recreated
      && r.state.currentFrame == s.currentFrame
      && !CanDraw(r.state)
  {
  }

  /** With a resize pending, any present result — even a fatal one — ends
      in a rebuild rather than an error. */
  lemma PendingResizeSwallowsPresentFailure(s: AppState, input: FrameInput)
    requires CanDraw(s) && ImageIndexFits(s, input)
    requires s.framebufferResized && !RebuildAtAcquire(s, input)
    requires Usable(input.acquireResult) && input.submitResult == Success
    ensures DrawFrame(s, input).outcome == Recreated
    ensures !DrawFrame(s, input).state.framebufferResized
  {
  }

  /** A resize notification followed by a frame that acquires, submits and
      presents successfully rebuilds instead of advancing, and consumes the
      notification. */
  lemma ResizeIsConsumedAtPresent(s: AppState, input: FrameInput, width: int, height: int)
    requires CanDraw(s) && ImageIndexFits(s, input)
    requires s.isWireFrame == s.pipelineWireFrame.value
    requires input.acquireResult == Success && input.submitResult == Success && input.presentResult == Success
    ensures var t := OnFramebufferSize(s, width, height);
      && CanDraw(t) && ImageIndexFits(t, input)
      && DrawFrame(t, input).outcome == Recreated
      && !DrawFrame(t, input).state.framebufferResized
      && DrawFrame(t, input).state.currentFrame == s.currentFrame
  {
  }

  /** A rebuild at acquire leaves a pending resize pending, so the next
      frame rebuilds a second time when it presents. */
  lemma ResizeSurvivesRebuildAtAcquire(s: AppState, input: FrameInput)
    requires CanDraw(s) && ImageIndexFits(s, input)
    requires s.framebufferResized && input.acquireResult == ErrorOutOfDateKhr
    ensures DrawFrame(s, input).outcome == Recreated
    ensures DrawFrame(s, input).state.framebufferResized
  {
  }

  /** A wireframe setting that differs from the pipeline's forces a rebuild,
      and the rebuilt pipeline has the requested setting. */
  lemma WireFrameChangeRebuildsPipeline(s: AppState, input: FrameInput)
    requires CanDraw(s) && ImageIndexFits(s, input)
    requires s.isWireFrame != s.pipelineWireFrame.value
    ensures DrawFrame(s, input).outcome == Recreated
    ensures DrawFrame(s, input).state.pipelineWireFrame == Some(s.isWireFrame)
    ensures DrawFrame(s, input).trace == [WaitFence(s.currentFrame), Acquire(s.currentFrame), Rebuild]
  {
  }
}
