/**
 * The viewport window of src/menus/viewport.cpp: at most one exists at a time, it renders
 * into its own framebuffer with a colour and a depth attachment, and it keeps that
 * framebuffer the size of the window region it is shown in, replacing the texture that
 * displays the colour attachment whenever the framebuffer is resized.
 */
module Viewport {
  import opened Wrappers
  import opened Vulkan
  import Image
  import Renderer
  import Framebuffer
  import Texture

  /** The attachments the viewport requests: R8G8B8A8_UNORM colour and D32_SFLOAT depth. */
  const Requested: map<Framebuffer.AttachmentType, nat> :=
    map[Framebuffer.Color := FormatR8G8B8A8Unorm, Framebuffer.DepthStencil := FormatD32Sfloat]

  /** The framebuffer spec of a viewport created at the swapchain's size. */
  function ViewportSpec(size: Extent): (spec: Framebuffer.Spec)
    ensures spec.width == size.width && spec.height == size.height
    ensures spec.requested.Keys == {Framebuffer.Color, Framebuffer.DepthStencil} && spec.provided == map[]
    ensures spec.requested[Framebuffer.Color] == 37 && spec.requested[Framebuffer.DepthStencil] == 126
    ensures spec.renderPass.None? && spec.framebuffer.None?
  {
    Framebuffer.Spec(size.width, size.height, None, None, Requested, map[])
  }

  /** The framebuffer constructor's refusal of an empty size, width first. */
  function SizeError(size: Extent): (message: string)
  {
    if size.width == 0 then "the specified width must be more than zero!" else "the specified height must be more than zero!"
  }

  const SecondViewport: string := "cannot have more than 1 viewport window!"

  /** The size the framebuffer should have for a content region: a zero side becomes 100. */
  function TargetSize(region: Extent): (size: Extent)
    ensures size.width > 0 && size.height > 0
    ensures region.width > 0 ==> size.width == region.width
    ensures region.height > 0 ==> size.height == region.height
    ensures region.width == 0 ==> size.width == 100
    ensures region.height == 0 ==> size.height == 100
  {
    Extent(if region.width == 0 then 100 else region.width, if region.height == 0 then 100 else region.height)
  }

  /** The static `viewport_instance`: whether it is set, and the viewport it points at when that one exists. */
  class InstanceSlot {
    var occupied: bool
    var instance: Viewport?

    constructor ()
      ensures !occupied && instance == null
    {
      occupied := false;
      instance := null;
    }

    /** `get_instance`. */
    function GetInstance(): (v: Viewport?)
      reads this
      ensures v == instance
    {
      instance
    }
  }

  /** `viewport`. */
  class Viewport {
    var framebuffer: Framebuffer.Framebuffer
    /** `m_color_attachment`: the texture that shows the framebuffer's colour attachment. */
    var colorAttachment: Texture.Texture
    /** `m_previous_color_attachment`: kept alive while the frame that still uses it is in flight. */
    var previousColorAttachment: Texture.Texture?

    constructor (framebuffer: Framebuffer.Framebuffer, colorAttachment: Texture.Texture)
      ensures this.framebuffer == framebuffer && this.colorAttachment == colorAttachment && previousColorAttachment == null
    {
      this.framebuffer := framebuffer;
      this.colorAttachment := colorAttachment;
      previousColorAttachment := null;
    }

    /** The framebuffer has a colour attachment for the texture to show. */
    predicate Valid()
      reads this, framebuffer
    {
      Framebuffer.Color in framebuffer.attachments
    }

    /**
     * `verify_size`: the framebuffer is resized to the target size of the region unless it
     * already has it; after a resize the old texture is kept as the previous one and a new
     * texture is made from the new colour attachment.
     */
    method VerifySize(region: Extent, renderer: Renderer.RendererData, textureId: nat, samplerOk: bool) returns (r: Result<()>)
      requires Valid()
      modifies this, framebuffer, renderer
      ensures framebuffer == old(framebuffer) && framebuffer.extent == TargetSize(region)
      ensures old(framebuffer.extent) == TargetSize(region) ==>
        r.Ok? && colorAttachment == old(colorAttachment) && previousColorAttachment == old(previousColorAttachment) &&
        framebuffer.attachments == old(framebuffer.attachments) && framebuffer.events == old(framebuffer.events)
      ensures old(framebuffer.extent) != TargetSize(region) ==> previousColorAttachment == old(colorAttachment)
      ensures old(framebuffer.extent) != TargetSize(region) ==> framebuffer.attachments.Keys == old(framebuffer.attachments).Keys
      ensures old(framebuffer.extent) != TargetSize(region) ==> (r.Ok? <==> samplerOk)
      ensures old(framebuffer.extent) != TargetSize(region) && r.Ok? ==>
        fresh(colorAttachment) && colorAttachment.image == framebuffer.attachments[Framebuffer.Color] &&
        colorAttachment.image.width == framebuffer.extent.width && colorAttachment.image.height == framebuffer.extent.height
      ensures r.Err? ==> colorAttachment == old(colorAttachment)
      ensures Valid()
    {
      var size := TargetSize(region);
      if framebuffer.extent != size {
        framebuffer.Resize(size, renderer);
        previousColorAttachment := colorAttachment;
        var image := framebuffer.GetAttachment(Framebuffer.Color);
        var created := Texture.NewTexture(renderer, textureId, image, true, samplerOk);
        if created.Err? {
          return Err(created.message);
        }
        colorAttachment := created.value;
      }
      r := Ok(());
    }
  }

  /**
   * The constructor as written: the slot is claimed before the framebuffer and the texture
   * are made, and stays claimed when either of them fails.
   */
  method NewViewportAsWritten(slot: InstanceSlot, swapchainSize: Extent, renderer: Renderer.RendererData,
                              textureId: nat, samplerOk: bool) returns (r: Result<Viewport>)
    modifies slot, renderer
    ensures old(slot.occupied) ==> r == Err(SecondViewport) && slot.occupied && slot.instance == old(slot.instance)
    ensures !old(slot.occupied) ==> slot.occupied
    ensures !old(slot.occupied) && (swapchainSize.width == 0 || swapchainSize.height == 0) ==> r == Err(SizeError(swapchainSize))
    ensures r.Ok? ==> slot.instance == r.value && r.value.Valid() && r.value.framebuffer.extent == swapchainSize
  {
    if slot.occupied {
      return Err(SecondViewport);
    }
    slot.occupied := true;
    r := Build(swapchainSize, renderer, textureId, samplerOk);
    if r.Ok? {
      slot.instance := r.value;
    }
  }

  /**
   * The constructor as intended: a failed construction gives the slot back, so a later
   * viewport can still be made.
   */
  method NewViewport(slot: InstanceSlot, swapchainSize: Extent, renderer: Renderer.RendererData,
                     textureId: nat, samplerOk: bool) returns (r: Result<Viewport>)
    modifies slot, renderer
    ensures old(slot.occupied) ==> r == Err(SecondViewport) && slot.occupied && slot.instance == old(slot.instance)
    ensures !old(slot.occupied) ==> (slot.occupied <==> r.Ok?)
    ensures !old(slot.occupied) && (swapchainSize.width == 0 || swapchainSize.height == 0) ==> r == Err(SizeError(swapchainSize))
    ensures !old(slot.occupied) && swapchainSize.width > 0 && swapchainSize.height > 0 ==> (r.Ok? <==> samplerOk)
    ensures r.Ok? ==> slot.instance == r.value && r.value.Valid() && r.value.framebuffer.extent == swapchainSize
  {
    if slot.occupied {
      return Err(SecondViewport);
    }
    slot.occupied := true;
    r := Build(swapchainSize, renderer, textureId, samplerOk);
    if r.Ok? {
      slot.instance := r.value;
    } else {
      slot.occupied := false;
    }
  }

  /** The framebuffer at the swapchain's size with the two requested attachments, and the texture showing its colour. */
  method Build(size: Extent, renderer: Renderer.RendererData, textureId: nat, samplerOk: bool) returns (r: Result<Viewport>)
    modifies renderer
    ensures (size.width == 0 || size.height == 0) ==> r == Err(SizeError(size))
    ensures size.width > 0 && size.height > 0 ==> (r.Ok? <==> samplerOk)
    ensures r.Ok? ==> fresh(r.value) && fresh(r.value.framebuffer) && r.value.Valid() && r.value.previousColorAttachment == null
    ensures r.Ok? ==> r.value.framebuffer.extent == size && r.value.framebuffer.attachments.Keys == Requested.Keys
    ensures r.Ok? ==> forall t :: t in Requested ==> r.value.framebuffer.attachments[t].format == Requested[t]
    ensures r.Ok? ==> r.value.colorAttachment.image == r.value.framebuffer.attachments[Framebuffer.Color]
  {
    var framebuffer := Framebuffer.New(ViewportSpec(size), renderer);
    if framebuffer == null {
      return Err(SizeError(size));
    }
    var image := framebuffer.GetAttachment(Framebuffer.Color);
    var created := Texture.NewTexture(renderer, textureId, image, true, samplerOk);
    if created.Err? {
      return Err(created.message);
    }
    var viewport := new Viewport(framebuffer, created.value);
    r := Ok(viewport);
  }

  /** The destructor: the slot is free again. */
  method Dispose(slot: InstanceSlot)
    modifies slot
    ensures !slot.occupied && slot.instance == null
  {
    slot.occupied := false;
    slot.instance := null;
  }
}
