/**
 * The command buffer of src/command_buffer.cpp: the render-pass state machine (at most one
 * render pass is recorded at a time, and recording cannot end inside one), the clear
 * values a render pass begins with, the begin flags, the fence a submission uses, and the
 * list of pipelines a reset releases.
 */
module CommandBuffer {
  import opened Wrappers
  import Renderer
  import Framebuffer

  /** `VK_COMMAND_BUFFER_USAGE_ONE_TIME_SUBMIT_BIT`. */
  const OneTimeSubmitBit: bv32 := 0x4
  /** The depth/stencil clear value, `{ 1.f, 0 }`. */
  const ClearDepth: real := 1.0
  const ClearStencil: nat := 0

  /** A `glm::vec4` clear colour. */
  datatype Color = Color(r: real, g: real, b: real, a: real)

  datatype ClearValue = ClearColor(color: Color) | ClearDepthStencil(depth: real, stencil: nat)

  /** A render target as the command buffer sees it: an identity and its attachment types. */
  datatype Target = Target(id: nat, attachmentTypes: set<Framebuffer.AttachmentType>)

  /** The fence a submission signals: the current frame's, or one made (and waited on) for this submission. */
  datatype Fence = FrameFence(frame: nat) | OwnFence

  /** What `submit` hands to the queue, and what it does afterwards. */
  datatype Submission = Submission(fence: Fence, waitSemaphore: bool, signalSemaphore: bool, waitsForFence: bool, destroysFence: bool)

  /** An attachment-type set has as many members as the two types it may hold. */
  lemma {:induction false} AttachmentTypeCount(types: set<Framebuffer.AttachmentType>)
    ensures |types| == (if Framebuffer.Color in types then 1 else 0) + (if Framebuffer.DepthStencil in types then 1 else 0)
  {
    var colors: set<Framebuffer.AttachmentType> := if Framebuffer.Color in types then {Framebuffer.Color} else {};
    var depths: set<Framebuffer.AttachmentType> := if Framebuffer.DepthStencil in types then {Framebuffer.DepthStencil} else {};
    assert types == colors + depths by {
      forall t | t in types ensures t in colors + depths {
        if t == Framebuffer.Color { } else { assert t == Framebuffer.DepthStencil; }
      }
    }
    assert colors !! depths;
  }

  /**
   * The clear values of a render pass: the clear colour first if the target has a colour
   * attachment, then depth 1, stencil 0 if it has a depth/stencil one — one per attachment type.
   */
  function ClearValues(types: set<Framebuffer.AttachmentType>, clearColor: Color): (r: seq<ClearValue>)
    ensures |r| == |types|
    ensures Framebuffer.Color in types <==> (|r| > 0 && r[0] == ClearColor(clearColor))
    ensures Framebuffer.DepthStencil in types <==> (|r| > 0 && r[|r| - 1] == ClearDepthStencil(ClearDepth, ClearStencil))
  {
    AttachmentTypeCount(types);
    (if Framebuffer.Color in types then [ClearColor(clearColor)] else []) +
    (if Framebuffer.DepthStencil in types then [ClearDepthStencil(ClearDepth, ClearStencil)] else [])
  }

  /** `command_buffer`: its kind, the render pass being recorded, and the pipelines it keeps alive until reset. */
  class CommandBuffer {
    const singleTime: bool
    const render: bool
    /** `m_current_render_target`. */
    var currentTarget: Option<Target>
    /** `m_rendered_pipelines`. */
    var renderedPipelines: seq<nat>

    /** The constructor takes a renderer reference. */
    constructor (renderer: Renderer.RendererData, singleTime: bool, render: bool)
      modifies renderer
      ensures this.singleTime == singleTime && this.render == render
      ensures currentTarget == None && renderedPipelines == []
      ensures renderer.refCount == old(renderer.refCount) + 1
      ensures renderer.shouldShutdown == old(renderer.shouldShutdown) && renderer.teardowns == old(renderer.teardowns)
    {
      this.singleTime := singleTime;
      this.render := render;
      currentTarget := None;
      renderedPipelines := [];
      renderer.AddRef();
    }

    /** The destructor gives the renderer reference back. */
    method Dispose(renderer: Renderer.RendererData)
      requires renderer.refCount > 0
      modifies renderer
      ensures renderer.refCount == old(renderer.refCount) - 1
      ensures renderer.teardowns == old(renderer.teardowns) + (if renderer.refCount == 0 && renderer.shouldShutdown then 1 else 0)
    {
      renderer.RemoveRef();
    }

    /** `begin`: the one-time-submit flag is set exactly for single-time buffers. */
    method Begin() returns (flags: bv32)
      ensures (flags & OneTimeSubmitBit != 0) <==> singleTime
      ensures flags & !OneTimeSubmitBit == 0
    {
      flags := 0;
      if singleTime {
        flags := flags | OneTimeSubmitBit;
      }
    }

    /** `end`: refused while a render pass is being recorded. */
    method End() returns (r: Result<()>)
      ensures r.Ok? <==> currentTarget.None?
      ensures r.Err? ==> r.message == "cannot end recording of a command buffer during a render pass!"
    {
      if currentTarget.Some? {
        return Err("cannot end recording of a command buffer during a render pass!");
      }
      r := Ok(());
    }

    /**
     * `submit`: a render buffer waits on the frame's image-available semaphore, signals its
     * render-finished semaphore and fence, and returns at once; any other buffer makes its own
     * fence, waits for it and destroys it.
     */
    method Submit(currentFrame: nat) returns (s: Submission)
      ensures render ==> s.fence == FrameFence(currentFrame) && !s.waitsForFence && !s.destroysFence
      ensures render <==> s.waitSemaphore
      ensures render <==> s.signalSemaphore
      ensures !render ==> s.fence == OwnFence && s.waitsForFence && s.destroysFence
    {
      if render {
        s := Submission(FrameFence(currentFrame), true, true, false, false);
      } else {
        s := Submission(OwnFence, false, false, true, true);
      }
    }

    /** `reset`: the pipelines kept alive by the recording are released. */
    method Reset()
      modifies this
      ensures renderedPipelines == []
      ensures currentTarget == old(currentTarget)
    {
      renderedPipelines := [];
    }

    /**
     * `begin_render_pass`: refused while another render pass is recorded; otherwise the target
     * becomes the current one and the pass begins with the target's clear values.
     */
    method BeginRenderPass(target: Target, clearColor: Color) returns (r: Result<seq<ClearValue>>)
      modifies this
      ensures r.Ok? <==> old(currentTarget).None?
      ensures r.Ok? ==> currentTarget == Some(target) && r.value == ClearValues(target.attachmentTypes, clearColor)
      ensures r.Err? ==> currentTarget == old(currentTarget) && r.message == "a render pass is already being recorded!"
      ensures renderedPipelines == old(renderedPipelines)
    {
      if currentTarget.Some? {
        return Err("a render pass is already being recorded!");
      }
      var clearValues: seq<ClearValue> := [];
      if Framebuffer.Color in target.attachmentTypes {
        clearValues := clearValues + [ClearColor(clearColor)];
      }
      if Framebuffer.DepthStencil in target.attachmentTypes {
        clearValues := clearValues + [ClearDepthStencil(ClearDepth, ClearStencil)];
      }
      currentTarget := Some(target);
      r := Ok(clearValues);
    }

    /** `end_render_pass`: refused when no render pass is recorded; otherwise none is afterwards. */
    method EndRenderPass() returns (r: Result<()>)
      modifies this
      ensures r.Ok? <==> old(currentTarget).Some?
      ensures currentTarget == None
      ensures r.Err? ==> r.message == "no render pass is being recorded!"
      ensures renderedPipelines == old(renderedPipelines)
    {
      if currentTarget.None? {
        return Err("no render pass is being recorded!");
      }
      currentTarget := None;
      r := Ok(());
    }
  }
}
