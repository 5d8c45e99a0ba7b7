/**
 * The drawable registry and frame recording of `VulkanContainer`, with the
 * Vulkan objects replaced by plain records: adapters are (type, swapchain
 * extension flag, queue families), images carry only their format, a vertex
 * buffer is the list of vertices it was filled with, and a recorded command
 * buffer is a sequence of `Command` values.
 */
module Vulkan {
  import opened Wrappers
  import opened Geometry

  const U32_MAX: nat := 0xFFFF_FFFF

  // ---------------------------------------------------------------------------
  // Device selection
  // ---------------------------------------------------------------------------

  datatype DeviceType = DiscreteGpu | IntegratedGpu | VirtualGpu | Cpu | OtherDevice

  /**
   * A queue family: whether it supports graphics, and the answer of the
   * surface-support query (None when the query itself failed).
   */
  datatype QueueFamily = QueueFamily(graphics: bool, surfaceSupport: Option<bool>)

  datatype PhysicalDevice = PhysicalDevice(
    deviceType: DeviceType,
    supportsSwapchain: bool,   // the required `khr_swapchain` device extension
    queueFamilies: seq<QueueFamily>)

  /** The chosen adapter (its position in the enumeration) and its queue family index. */
  datatype Selection = Selection(device: nat, queueFamily: nat)

  datatype DeviceError = NoDeviceAvailable

  /** Preference order of adapter types; the lowest rank wins. */
  function Rank(t: DeviceType): nat
  {
    match t
    case DiscreteGpu => 0
    case IntegratedGpu => 1
    case VirtualGpu => 2
    case Cpu => 3
    case OtherDevice => 4
  }

  /** A family usable for drawing and presenting: graphics, and a surface query that answered yes. */
  predicate GraphicsAndPresent(q: QueueFamily)
  {
    q.graphics && q.surfaceSupport == Some(true)
  }

  /** The position of the first graphics-and-present family at or after `from`. */
  function FirstPresentQueue(families: seq<QueueFamily>, from: nat): (r: Option<nat>)
    requires from <= |families|
    decreases |families| - from
    ensures r.Some? ==> from <= r.value < |families| && GraphicsAndPresent(families[r.value])
    ensures r.Some? ==> forall j :: from <= j < r.value ==> !GraphicsAndPresent(families[j])
    ensures r.None? <==> forall j :: from <= j < |families| ==> !GraphicsAndPresent(families[j])
  {
    if from == |families| then None
    else if GraphicsAndPresent(families[from]) then Some(from)
    else FirstPresentQueue(families, from + 1)
  }

  /** The queue family an adapter would be used with, if it passes both filters. */
  function QueueFor(p: PhysicalDevice): Option<nat>
  {
    if p.supportsSwapchain then FirstPresentQueue(p.queueFamilies, 0) else None
  }

  predicate Qualifies(p: PhysicalDevice)
  {
    QueueFor(p).Some?
  }

  /**
   * Among the qualifying adapters at or after `from`, the one of lowest rank,
   * the earliest one on a tie (as `min_by_key` returns the first minimum).
   */
  function SelectFrom(devices: seq<PhysicalDevice>, from: nat): (r: Option<Selection>)
    requires from <= |devices|
    decreases |devices| - from
    ensures r.None? <==> forall j :: from <= j < |devices| ==> !Qualifies(devices[j])
    ensures r.Some? ==>
      && from <= r.value.device < |devices|
      && QueueFor(devices[r.value.device]) == Some(r.value.queueFamily)
      && (forall j :: from <= j < |devices| && Qualifies(devices[j]) ==>
            Rank(devices[r.value.device].deviceType) <= Rank(devices[j].deviceType))
      && (forall j :: from <= j < r.value.device && Qualifies(devices[j]) ==>
            Rank(devices[r.value.device].deviceType) < Rank(devices[j].deviceType))
  {
    if from == |devices| then None
    else
      var rest := SelectFrom(devices, from + 1);
      match QueueFor(devices[from])
      case None => rest
      case Some(q) =>
        if rest.None? || Rank(devices[from].deviceType) <= Rank(devices[rest.value.device].deviceType)
        then Some(Selection(from, q))
        else rest
  }

  /** `create_physical_device`: the selection rule, with "no device available" as a fatal error. */
  function SelectPhysicalDevice(devices: seq<PhysicalDevice>): (r: Result<Selection, DeviceError>)
    ensures r.Failure? <==> forall j :: 0 <= j < |devices| ==> !Qualifies(devices[j])
    ensures r.Success? ==>
      && r.value.device < |devices|
      && devices[r.value.device].supportsSwapchain
      && r.value.queueFamily < |devices[r.value.device].queueFamilies|
      && GraphicsAndPresent(devices[r.value.device].queueFamilies[r.value.queueFamily])
      && (forall k :: 0 <= k < r.value.queueFamily ==>
            !GraphicsAndPresent(devices[r.value.device].queueFamilies[k]))
      && (forall j :: 0 <= j < |devices| && Qualifies(devices[j]) ==>
            Rank(devices[r.value.device].deviceType) <= Rank(devices[j].deviceType))
      && (forall j :: 0 <= j < r.value.device && Qualifies(devices[j]) ==>
            Rank(devices[r.value.device].deviceType) < Rank(devices[j].deviceType))
  {
    match SelectFrom(devices, 0)
    case None => Failure(NoDeviceAvailable)
    case Some(s) => Success(s)
  }

  /** The selection rule names a single adapter: any choice meeting it is the one made. */
  lemma SelectionIsUnique(devices: seq<PhysicalDevice>, d: nat)
    requires d < |devices| && Qualifies(devices[d])
    requires forall j :: 0 <= j < |devices| && Qualifies(devices[j]) ==>
      Rank(devices[d].deviceType) <= Rank(devices[j].deviceType)
    requires forall j :: 0 <= j < d && Qualifies(devices[j]) ==>
      Rank(devices[d].deviceType) < Rank(devices[j].deviceType)
    ensures SelectPhysicalDevice(devices) == Success(Selection(d, QueueFor(devices[d]).value))
  {
    var r := SelectPhysicalDevice(devices);
    assert r.Success?;
  }

  // ---------------------------------------------------------------------------
  // Swapchain, image views, render pass, framebuffers
  // ---------------------------------------------------------------------------

  datatype UVec2 = UVec2(x: nat, y: nat)

  datatype Format = Format(code: nat)

  datatype CompositeAlpha = CompositeAlpha(bits: nat)

  datatype SurfaceCapabilities = SurfaceCapabilities(
    minImageCount: nat,
    supportedCompositeAlpha: seq<CompositeAlpha>)

  datatype SwapchainCreateInfo = SwapchainCreateInfo(
    minImageCount: nat,
    imageFormat: Format,
    imageExtent: UVec2,
    compositeAlpha: CompositeAlpha)

  datatype SwapchainError = NoCompositeAlpha | NoSurfaceFormat

  /**
   * The parameters `create_swapchain` asks for: one image more than the
   * surface's minimum, the first supported format, the window size and the
   * first supported composite-alpha mode. Both "first" lookups panic on an
   * empty list; composite alpha is looked up before the format.
   */
  function SwapchainRequest(caps: SurfaceCapabilities, formats: seq<Format>, windowSize: UVec2)
    : (r: Result<SwapchainCreateInfo, SwapchainError>)
    ensures r.Success? <==> |caps.supportedCompositeAlpha| > 0 && |formats| > 0
    ensures |caps.supportedCompositeAlpha| == 0 ==> r == Failure(NoCompositeAlpha)
    ensures |caps.supportedCompositeAlpha| > 0 && |formats| == 0 ==> r == Failure(NoSurfaceFormat)
    ensures r.Success? ==>
      && r.value.minImageCount == caps.minImageCount + 1
      && r.value.imageFormat == formats[0]
      && r.value.imageExtent == windowSize
      && r.value.compositeAlpha == caps.supportedCompositeAlpha[0]
  {
    if |caps.supportedCompositeAlpha| == 0 then Failure(NoCompositeAlpha)
    else if |formats| == 0 then Failure(NoSurfaceFormat)
    else Success(SwapchainCreateInfo(caps.minImageCount + 1, formats[0], windowSize,
                                     caps.supportedCompositeAlpha[0]))
  }

  datatype Image = Image(format: Format)

  /** A 2D colour view of one image, in the image's own format. */
  datatype ImageView = ImageView(image: Image, format: Format)

  /** The single colour attachment of the render pass has this format. */
  datatype RenderPass = RenderPass(colorFormat: Format)

  datatype GraphicsPipeline = GraphicsPipeline(renderPass: RenderPass)

  datatype Framebuffer = Framebuffer(renderPass: RenderPass, attachments: seq<ImageView>)

  /** `create_image_views`: one view per swapchain image, pushed in image order. */
  method CreateImageViews(images: seq<Image>) returns (views: seq<ImageView>)
    ensures |views| == |images|
    ensures forall i :: 0 <= i < |images| ==>
      views[i].image == images[i] && views[i].format == images[i].format
  {
    views := [];
    for i := 0 to |images|
      invariant |views| == i
      invariant forall k :: 0 <= k < i ==> views[k] == ImageView(images[k], images[k].format)
    {
      views := views + [ImageView(images[i], images[i].format)];
    }
  }

  /** `create_frame_buffers`: one framebuffer per image view, in the same order. */
  function CreateFrameBuffers(renderPass: RenderPass, views: seq<ImageView>): (fbs: seq<Framebuffer>)
    ensures |fbs| == |views|
    ensures forall i :: 0 <= i < |views| ==>
      fbs[i].renderPass == renderPass && fbs[i].attachments == [views[i]]
  {
    seq(|views|, i requires 0 <= i < |views| => Framebuffer(renderPass, [views[i]]))
  }

  /**
   * The framebuffers `new` builds from the views of `images`, on the render
   * pass made in the first image's format: each attachment has its own
   * image's format, and every attachment matches the render pass's colour
   * format exactly when all images share the first image's format.
   */
  lemma FramebufferFormatsMatch(images: seq<Image>, views: seq<ImageView>)
    requires |images| > 0 && |views| == |images|
    requires forall i :: 0 <= i < |images| ==>
      views[i].image == images[i] && views[i].format == images[i].format
    ensures forall i :: 0 <= i < |images| ==>
      CreateFrameBuffers(RenderPass(images[0].format), views)[i].attachments[0].format == images[i].format
    ensures (forall i :: 0 <= i < |images| ==> images[i].format == images[0].format) <==>
      (forall i :: 0 <= i < |images| ==>
        CreateFrameBuffers(RenderPass(images[0].format), views)[i].attachments[0].format ==
        CreateFrameBuffers(RenderPass(images[0].format), views)[i].renderPass.colorFormat)
  {
  }

  // ---------------------------------------------------------------------------
  // Viewport and scissor
  // ---------------------------------------------------------------------------

  /** The window-side viewport description: offset and extent as 32-bit floats. */
  datatype ViewportInfo = ViewportInfo(offset: Vec2, extent: Vec2)

  datatype Viewport = Viewport(offset: Vec2, extent: Vec2, depthMin: real, depthMax: real)

  datatype Scissor = Scissor(offset: UVec2, extent: UVec2)

  /**
   * Rust's `f32 as u32`: truncation toward zero, saturating at both ends
   * (negative values give 0, values beyond the range give `u32::MAX`).
   */
  function ToU32(x: real): (r: nat)
    ensures r <= U32_MAX
    ensures x < 1.0 ==> r == 0
    ensures 0.0 <= x < (U32_MAX + 1) as real ==> r as real <= x < r as real + 1.0
    ensures x >= (U32_MAX + 1) as real ==> r == U32_MAX
  {
    if x <= 0.0 then 0
    else if x >= (U32_MAX + 1) as real then U32_MAX
    else x.Floor
  }

  /** The viewport built from a `ViewportInfo`: same offset and extent, depth range 0..1. */
  function ViewportFrom(info: ViewportInfo): Viewport
  {
    Viewport(info.offset, info.extent, 0.0, 1.0)
  }

  /** The scissor built from a `ViewportInfo`: each coordinate cast to `u32`. */
  function ScissorFrom(info: ViewportInfo): Scissor
  {
    Scissor(UVec2(ToU32(info.offset.x), ToU32(info.offset.y)),
            UVec2(ToU32(info.extent.x), ToU32(info.extent.y)))
  }

  /** A whole, non-negative window size survives the cast to the scissor unchanged. */
  lemma ScissorKeepsWholeSizes(info: ViewportInfo, w: nat, h: nat)
    requires w <= U32_MAX && h <= U32_MAX
    requires info.extent == Vec2(w as real, h as real)
    ensures ScissorFrom(info).extent == UVec2(w, h)
  {
    assert ToU32(w as real) == w;
    assert ToU32(h as real) == h;
  }

  // ---------------------------------------------------------------------------
  // The recorded command stream
  // ---------------------------------------------------------------------------

  datatype Command =
    | BeginRenderPass(framebuffer: Framebuffer, clearColor: seq<real>)
    | BindPipelineGraphics(pipeline: GraphicsPipeline)
    | SetViewportWithCount(viewports: seq<Viewport>)
    | SetScissorWithCount(scissors: seq<Scissor>)
    | BindVertexBuffers(firstBinding: nat, buffer: seq<Vertex>)
    | Draw(vertexCount: nat, instanceCount: nat, firstVertex: nat, firstInstance: nat)
    | EndRenderPass

  /** Opaque black, the clear value of the colour attachment. */
  const ClearColor: seq<real> := [0.0, 0.0, 0.0, 1.0]

  /** A non-indexed draw of a whole buffer, one instance. */
  function DrawOf(buffer: seq<Vertex>): Command
  {
    Draw(|buffer|, 1, 0, 0)
  }

  /** The (bind, draw) pair recorded for each buffer, in list order. */
  function DrawCommands(buffers: seq<seq<Vertex>>): (cmds: seq<Command>)
    ensures |cmds| == 2 * |buffers|
  {
    if buffers == [] then []
    else
      var last := buffers[|buffers| - 1];
      DrawCommands(buffers[..|buffers| - 1]) + [BindVertexBuffers(0, last), DrawOf(last)]
  }

  /** The whole command buffer recorded for one frame. */
  function FrameCommands(framebuffer: Framebuffer, pipeline: GraphicsPipeline, viewports: seq<Viewport>,
                         scissors: seq<Scissor>, buffers: seq<seq<Vertex>>): (cmds: seq<Command>)
    ensures |cmds| == 5 + 2 * |buffers|
    ensures cmds[0] == BeginRenderPass(framebuffer, ClearColor) && cmds[1] == BindPipelineGraphics(pipeline)
    ensures cmds[2] == SetViewportWithCount(viewports) && cmds[3] == SetScissorWithCount(scissors)
    ensures cmds[|cmds| - 1] == EndRenderPass
  {
    [BeginRenderPass(framebuffer, ClearColor), BindPipelineGraphics(pipeline),
     SetViewportWithCount(viewports), SetScissorWithCount(scissors)]
    + DrawCommands(buffers) + [EndRenderPass]
  }

  /** The draw commands of a stream, in order. */
  function Draws(cmds: seq<Command>): seq<Command>
  {
    if cmds == [] then []
    else (if cmds[0].Draw? then [cmds[0]] else []) + Draws(cmds[1..])
  }

  lemma {:induction false} DrawsAppend(a: seq<Command>, b: seq<Command>)
    ensures Draws(a + b) == Draws(a) + Draws(b)
  {
    if a == [] {
      assert a + b == b;
    } else {
      assert (a + b)[1..] == a[1..] + b;
      DrawsAppend(a[1..], b);
    }
  }

  lemma {:induction false} NoDrawsIn(cmds: seq<Command>)
    requires forall i :: 0 <= i < |cmds| ==> !cmds[i].Draw?
    ensures Draws(cmds) == []
  {
    if cmds != [] {
      NoDrawsIn(cmds[1..]);
    }
  }

  /** Buffer i is bound at stream position 2i and drawn whole, once, at 2i + 1. */
  lemma {:induction false} DrawCommandsAt(buffers: seq<seq<Vertex>>, i: nat)
    requires i < |buffers|
    ensures DrawCommands(buffers)[2 * i] == BindVertexBuffers(0, buffers[i])
    ensures DrawCommands(buffers)[2 * i + 1] == Draw(|buffers[i]|, 1, 0, 0)
  {
    var n := |buffers| - 1;
    if i < n {
      DrawCommandsAt(buffers[..n], i);
    }
  }

  /** N buffers give exactly N draws, the k-th drawing all of buffer k with one instance. */
  lemma {:induction false} DrawCommandsDraws(buffers: seq<seq<Vertex>>)
    ensures |Draws(DrawCommands(buffers))| == |buffers|
    ensures forall k :: 0 <= k < |buffers| ==> Draws(DrawCommands(buffers))[k] == DrawOf(buffers[k])
  {
    if buffers != [] {
      var n := |buffers| - 1;
      var last := buffers[n];
      DrawCommandsDraws(buffers[..n]);
      DrawsAppend(DrawCommands(buffers[..n]), [BindVertexBuffers(0, last), DrawOf(last)]);
      assert Draws([BindVertexBuffers(0, last), DrawOf(last)]) == [DrawOf(last)] by {
        assert [BindVertexBuffers(0, last), DrawOf(last)][1..] == [DrawOf(last)];
        assert Draws([DrawOf(last)]) == [DrawOf(last)] + Draws([]);
      }
    }
  }

  /**
   * The frame's stream: begin on the chosen framebuffer, bind the pipeline,
   * set viewports and scissors, a (bind, draw) pair per buffer, end. Its draws
   * are exactly one per buffer, in list order, each of the buffer's length.
   */
  lemma FrameCommandsShape(framebuffer: Framebuffer, pipeline: GraphicsPipeline, viewports: seq<Viewport>,
                           scissors: seq<Scissor>, buffers: seq<seq<Vertex>>)
    ensures var cmds := FrameCommands(framebuffer, pipeline, viewports, scissors, buffers);
      && |cmds| == 2 * |buffers| + 5
      && cmds[0] == BeginRenderPass(framebuffer, ClearColor)
      && cmds[1] == BindPipelineGraphics(pipeline)
      && cmds[2] == SetViewportWithCount(viewports)
      && cmds[3] == SetScissorWithCount(scissors)
      && cmds[|cmds| - 1] == EndRenderPass
      && (forall i :: 0 <= i < |buffers| ==>
            cmds[4 + 2 * i] == BindVertexBuffers(0, buffers[i]) && cmds[5 + 2 * i] == DrawOf(buffers[i]))
      && |Draws(cmds)| == |buffers|
      && (forall k :: 0 <= k < |buffers| ==> Draws(cmds)[k] == DrawOf(buffers[k]))
  {
    var prologue := [BeginRenderPass(framebuffer, ClearColor), BindPipelineGraphics(pipeline),
                     SetViewportWithCount(viewports), SetScissorWithCount(scissors)];
    var body := DrawCommands(buffers);
    var cmds := FrameCommands(framebuffer, pipeline, viewports, scissors, buffers);
    assert cmds == prologue + body + [EndRenderPass];
    forall i | 0 <= i < |buffers|
      ensures cmds[4 + 2 * i] == BindVertexBuffers(0, buffers[i]) && cmds[5 + 2 * i] == DrawOf(buffers[i])
    {
      DrawCommandsAt(buffers, i);
    }
    DrawsAppend(prologue, body);
    DrawsAppend(prologue + body, [EndRenderPass]);
    DrawCommandsDraws(buffers);
    NoDrawsIn(prologue);
    NoDrawsIn([EndRenderPass]);
  }

  /** Removing position `index` keeps every other buffer, in its original order. */
  function RemoveAt<T>(s: seq<T>, index: nat): (r: seq<T>)
    requires index < |s|
    ensures |r| == |s| - 1
    ensures forall j :: 0 <= j < index ==> r[j] == s[j]
    ensures forall j :: index <= j < |r| ==> r[j] == s[j + 1]
  {
    s[..index] + s[index + 1..]
  }

  // ---------------------------------------------------------------------------
  // The container
  // ---------------------------------------------------------------------------

  class VulkanContainer {
    // Fixed at construction; nothing in the container reassigns them.
    const swapchain: SwapchainCreateInfo
    const renderPass: RenderPass
    const graphicsPipeline: GraphicsPipeline
    const framebuffers: seq<Framebuffer>
    // Updated in place.
    var viewports: seq<Viewport>
    var scissors: seq<Scissor>
    var vertexBuffers: seq<seq<Vertex>>

    /** Slot 0 of the viewport and scissor lists exists (resize overwrites it). */
    ghost predicate Valid()
      reads this
    {
      |viewports| >= 1 && |scissors| >= 1
    }

    /**
     * The bookkeeping part of `VulkanContainer::new`, given the swapchain
     * parameters and the images the swapchain was created with: a view and a
     * framebuffer per image, a render pass in the first image's format, one
     * viewport and one scissor from `info`, and no vertex buffers.
     */
    constructor (swapchain: SwapchainCreateInfo, images: seq<Image>, info: ViewportInfo)
      requires |images| > 0
      ensures Valid()
      ensures this.swapchain == swapchain
      ensures renderPass == RenderPass(images[0].format) && graphicsPipeline == GraphicsPipeline(renderPass)
      ensures |framebuffers| == |images|
      ensures forall i :: 0 <= i < |images| ==>
        framebuffers[i].renderPass == renderPass && |framebuffers[i].attachments| == 1 &&
        framebuffers[i].attachments[0].image == images[i] &&
        framebuffers[i].attachments[0].format == images[i].format
      ensures (forall i :: 0 <= i < |images| ==> images[i].format == images[0].format) ==>
        forall i :: 0 <= i < |framebuffers| ==> framebuffers[i].attachments[0].format == renderPass.colorFormat
      ensures viewports == [ViewportFrom(info)] && scissors == [ScissorFrom(info)]
      ensures vertexBuffers == []
    {
      var views := CreateImageViews(images);
      var pass := RenderPass(images[0].format);
      this.swapchain := swapchain;
      renderPass := pass;
      graphicsPipeline := GraphicsPipeline(pass);
      framebuffers := CreateFrameBuffers(pass, views);
      FramebufferFormatsMatch(images, views);
      viewports := [ViewportFrom(info)];
      scissors := [ScissorFrom(info)];
      vertexBuffers := [];
    }

    /** Appends one buffer holding `vertices`; the earlier buffers are untouched. */
    method CreateVertexBuffer(vertices: seq<Vertex>)
      modifies this
      ensures vertexBuffers == old(vertexBuffers) + [vertices]
      ensures viewports == old(viewports) && scissors == old(scissors)
    {
      vertexBuffers := vertexBuffers + [vertices];
    }

    /**
     * Removes the buffer at `index`; an index out of bounds is logged and
     * changes nothing.
     */
    method DeleteVertexBuffer(index: nat)
      modifies this
      ensures index >= |old(vertexBuffers)| ==> vertexBuffers == old(vertexBuffers)
      ensures index < |old(vertexBuffers)| ==> vertexBuffers == RemoveAt(old(vertexBuffers), index)
      ensures viewports == old(viewports) && scissors == old(scissors)
    {
      if index >= |vertexBuffers| {
        return;
      }
      vertexBuffers := vertexBuffers[..index] + vertexBuffers[index + 1..];
    }

    /**
     * `create_command_buffer`: records the frame for the acquired image,
     * one (bind, draw) pair per vertex buffer in list order.
     */
    method RecordCommandBuffer(imageIndex: nat) returns (cmds: seq<Command>)
      requires imageIndex < |framebuffers|
      ensures cmds == FrameCommands(framebuffers[imageIndex], graphicsPipeline, viewports, scissors, vertexBuffers)
    {
      cmds := [BeginRenderPass(framebuffers[imageIndex], ClearColor), BindPipelineGraphics(graphicsPipeline),
               SetViewportWithCount(viewports), SetScissorWithCount(scissors)];
      ghost var prologue := cmds;
      var i := 0;
      while i < |vertexBuffers|
        invariant 0 <= i <= |vertexBuffers|
        invariant cmds == prologue + DrawCommands(vertexBuffers[..i])
      {
        var buffer := vertexBuffers[i];
        assert vertexBuffers[..i + 1][..i] == vertexBuffers[..i];
        cmds := cmds + [BindVertexBuffers(0, buffer), Draw(|buffer|, 1, 0, 0)];
        i := i + 1;
      }
      assert vertexBuffers[..i] == vertexBuffers;
      cmds := cmds + [EndRenderPass];
    }

    /**
     * Overwrites slot 0 of the viewport and scissor lists from `info`; the
     * swapchain, framebuffers and vertex buffers are not touched.
     */
    method ResizeViewport(info: ViewportInfo)
      requires Valid()
      modifies this
      ensures Valid()
      ensures viewports == old(viewports)[0 := ViewportFrom(info)]
      ensures scissors == old(scissors)[0 := ScissorFrom(info)]
      ensures vertexBuffers == old(vertexBuffers)
    {
      viewports := viewports[0 := Viewport(info.offset, info.extent, 0.0, 1.0)];
      scissors := scissors[0 := Scissor(UVec2(ToU32(info.offset.x), ToU32(info.offset.y)),
                                        UVec2(ToU32(info.extent.x), ToU32(info.extent.y)))];
    }
  }

  /**
   * Two buffers created, the first deleted, one frame recorded: the frame
   * draws exactly once, the second buffer, whole.
   */
  method CreateDeleteDrawScenario(swapchain: SwapchainCreateInfo, images: seq<Image>, info: ViewportInfo,
                                  first: seq<Vertex>, second: seq<Vertex>)
      returns (cmds: seq<Command>)
    requires |images| > 0
    ensures Draws(cmds) == [Draw(|second|, 1, 0, 0)]
  {
    var container := new VulkanContainer(swapchain, images, info);
    container.CreateVertexBuffer(first);
    container.CreateVertexBuffer(second);
    container.DeleteVertexBuffer(0);
    assert container.vertexBuffers == [second];
    cmds := container.RecordCommandBuffer(0);
    FrameCommandsShape(container.framebuffers[0], container.graphicsPipeline, container.viewports,
                       container.scissors, container.vertexBuffers);
    assert Draws(cmds) == [Draw(|second|, 1, 0, 0)];
  }
}
