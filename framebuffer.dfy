/**
 * The off-screen render target of src/framebuffer.cpp: size validation at construction,
 * the attachment table (images handed in, plus images created for the requested
 * attachment types), ownership of the render pass, the table of reload callbacks
 * registered by dependents, and the order in which the framebuffer handle and those
 * callbacks are destroyed and recreated.
 */
module Framebuffer {
  import opened Wrappers
  import opened Vulkan
  import Image
  import Renderer

  /** `attachment_type`, in its declaration (and map iteration) order. */
  datatype AttachmentType = Color | DepthStencil

  const AllTypes: seq<AttachmentType> := [Color, DepthStencil]

  /** Collecting the listed types that lie in `keys` gives back `keys`. */
  lemma ListedTypes(keys: set<AttachmentType>)
    ensures (set j | 0 <= j < |AllTypes| && AllTypes[j] in keys :: AllTypes[j]) == keys
  {
    forall t | t in keys
      ensures t in (set j | 0 <= j < |AllTypes| && AllTypes[j] in keys :: AllTypes[j])
    {
      var j := if t == Color then 0 else 1;
      assert AllTypes[j] == t;
    }
  }

  /** How many of the types in `keys` are not in `provided`, type by type. */
  function NotProvided(keys: set<AttachmentType>, provided: set<AttachmentType>): nat
  {
    (if Color in keys && Color !in provided then 1 else 0) +
    (if DepthStencil in keys && DepthStencil !in provided then 1 else 0)
  }

  /** Counting type by type agrees with the size of the set difference. */
  lemma NotProvidedCount(keys: set<AttachmentType>, provided: set<AttachmentType>)
    ensures NotProvided(keys, provided) == |keys - provided|
  {
    var colors: set<AttachmentType> := if Color in keys && Color !in provided then {Color} else {};
    var depths: set<AttachmentType> := if DepthStencil in keys && DepthStencil !in provided then {DepthStencil} else {};
    assert keys - provided == colors + depths by {
      forall t | t in keys - provided ensures t in colors + depths {
        if t == Color { } else { assert t == DepthStencil; }
      }
    }
    assert colors !! depths;
  }

  /** `framebuffer_spec`. A render pass or framebuffer handle passed in is given by its handle. */
  datatype Spec = Spec(
    width: nat, height: nat,
    renderPass: Option<nat>, framebuffer: Option<nat>,
    requested: map<AttachmentType, nat>,
    provided: map<AttachmentType, Image.Image2D>)

  /** The pair of callbacks a dependent registers, by identity. */
  datatype Callbacks = Callbacks(destroy: nat, recreate: nat)

  /** What happens to the Vulkan objects and the dependents, in order. */
  datatype Event =
    | RenderPassCreated
    | RenderPassDestroyed
    | FramebufferCreated
    | FramebufferDestroyed
    | DependentsRecreated(ids: set<nat>)
    | DependentsDestroyed(ids: set<nat>)

  /** The usage of an image created for an attachment. */
  function UsageFor(t: AttachmentType): (usage: bv32)
  {
    UsageSampled | UsageTransferSrc | (if t == Color then UsageColorAttachment else UsageDepthStencilAttachment)
  }

  /** A created attachment image is sampled, a transfer source, and an attachment of its type. */
  lemma UsageForBits(t: AttachmentType)
    ensures UsageFor(t) & UsageSampled != 0 && UsageFor(t) & UsageTransferSrc != 0
    ensures UsageFor(t) & UsageColorAttachment != 0 <==> t == Color
    ensures UsageFor(t) & UsageDepthStencilAttachment != 0 <==> t == DepthStencil
  {
  }

  /**
   * The aspect of an image created for an attachment: colour for a colour attachment;
   * depth for a depth attachment, plus stencil when the format has a stencil part.
   */
  function AspectFor(t: AttachmentType, format: nat): (aspect: bv32)
  {
    match t
    case Color => AspectColor
    case DepthStencil =>
      if format == FormatD32SfloatS8Uint || format == FormatD24UnormS8Uint then AspectDepth | AspectStencil else AspectDepth
  }

  /** Colour for a colour attachment; depth, and stencil exactly for the two stencil formats, otherwise. */
  lemma AspectForBits(t: AttachmentType, format: nat)
    ensures t == Color ==> AspectFor(t, format) == AspectColor
    ensures t == DepthStencil ==> AspectFor(t, format) & AspectDepth != 0 && AspectFor(t, format) & AspectColor == 0
    ensures t == DepthStencil ==>
      (AspectFor(t, format) & AspectStencil != 0 <==> format == FormatD32SfloatS8Uint || format == FormatD24UnormS8Uint)
  {
  }

  /**
   * An image allocated as `acquire_attachments` creates it for a requested type and format
   * (it is then left in the general layout).
   */
  predicate CreatedFor(image: Image.Image2D, t: AttachmentType, format: nat, width: nat, height: nat)
  {
    image.format == format && image.width == width && image.height == height &&
    image.usage == UsageFor(t) && image.aspect == AspectFor(t, format)
  }

  /**
   * Part way through `acquire_attachments`: the provided images, and for some of the
   * other requested types an image created for them.
   */
  ghost predicate Partial(acquired: map<AttachmentType, Image.Image2D>, spec: Spec)
  {
    spec.provided.Keys <= acquired.Keys <= spec.provided.Keys + spec.requested.Keys &&
    (forall t :: t in spec.provided ==> acquired[t] == spec.provided[t]) &&
    forall t :: t in acquired && t !in spec.provided ==>
      t in spec.requested && CreatedFor(acquired[t], t, spec.requested[t], spec.width, spec.height)
  }

  /** The format of each attachment's image, by type. */
  function Formats(attachments: map<AttachmentType, Image.Image2D>): (formats: map<AttachmentType, nat>)
    ensures formats.Keys == attachments.Keys
    ensures forall t :: t in formats ==> formats[t] == attachments[t].format
  {
    map t | t in attachments :: attachments[t].format
  }

  /** A `framebuffer`. */
  class Framebuffer {
    var extent: Extent
    var renderPassOwned: bool
    var attachments: map<AttachmentType, Image.Image2D>
    var dependents: map<nat, Callbacks>
    var events: seq<Event>

    /** The constructor once the size has been checked (see `New`). */
    constructor (spec: Spec, renderer: Renderer.RendererData)
      requires spec.width > 0 && spec.height > 0
      modifies renderer
      ensures renderer.refCount == old(renderer.refCount) + |spec.requested.Keys - spec.provided.Keys|
      ensures renderer.shouldShutdown == old(renderer.shouldShutdown) && renderer.teardowns == old(renderer.teardowns)
      ensures extent == Extent(spec.width, spec.height)
      ensures renderPassOwned <==> spec.renderPass.None?
      ensures attachments.Keys == spec.provided.Keys + spec.requested.Keys
      ensures forall t :: t in spec.provided ==> attachments[t] == spec.provided[t]
      ensures forall t :: t in spec.requested && t !in spec.provided ==>
        fresh(attachments[t]) && attachments[t].layout == LayoutGeneral && CreatedFor(attachments[t], t, spec.requested[t], spec.width, spec.height)
      ensures dependents == map[]
      ensures events == (if spec.renderPass.None? then [RenderPassCreated] else []) +
                        (if spec.framebuffer.None? then [FramebufferCreated, DependentsRecreated({})] else [])
    {
      extent := Extent(spec.width, spec.height);
      var acquired := Acquire(spec, renderer);
      attachments := acquired;
      dependents := map[];
      // `create_render_pass` and `create_framebuffer` (no dependents yet) for the handles not provided
      events := (if spec.renderPass.None? then [RenderPassCreated] else []) +
                (if spec.framebuffer.None? then [FramebufferCreated, DependentsRecreated({})] else []);
      renderPassOwned := spec.renderPass.None?;
    }

    /**
     * `acquire_attachments`: the provided images are taken as they are, and an image is
     * created for every requested type that was not provided, each taking a renderer
     * reference.
     */
    method AcquireAttachments(spec: Spec, renderer: Renderer.RendererData)
      modifies this`attachments, renderer
      ensures renderer.refCount == old(renderer.refCount) + |spec.requested.Keys - spec.provided.Keys|
      ensures renderer.shouldShutdown == old(renderer.shouldShutdown) && renderer.teardowns == old(renderer.teardowns)
      ensures attachments.Keys == spec.provided.Keys + spec.requested.Keys
      ensures forall t :: t in spec.provided ==> attachments[t] == spec.provided[t]
      ensures forall t :: t in spec.requested && t !in spec.provided ==>
        fresh(attachments[t]) && attachments[t].layout == LayoutGeneral && CreatedFor(attachments[t], t, spec.requested[t], spec.width, spec.height)
      ensures extent == old(extent) && renderPassOwned == old(renderPassOwned)
      ensures dependents == old(dependents) && events == old(events)
    {
      attachments := Acquire(spec, renderer);
    }

    /** The images `acquire_attachments` ends with. */
    static method Acquire(spec: Spec, renderer: Renderer.RendererData) returns (acquired: map<AttachmentType, Image.Image2D>)
      modifies renderer
      ensures renderer.refCount == old(renderer.refCount) + |spec.requested.Keys - spec.provided.Keys|
      ensures renderer.shouldShutdown == old(renderer.shouldShutdown) && renderer.teardowns == old(renderer.teardowns)
      ensures acquired.Keys == spec.provided.Keys + spec.requested.Keys
      ensures forall t :: t in spec.provided ==> acquired[t] == spec.provided[t]
      ensures forall t :: t in spec.requested && t !in spec.provided ==>
        fresh(acquired[t]) && acquired[t].layout == LayoutGeneral && CreatedFor(acquired[t], t, spec.requested[t], spec.width, spec.height)
    {
      ghost var made;
      acquired, made := AcquireFrom(spec.provided, {}, spec.requested.Keys, spec, renderer);
      Completed(acquired, spec);
      NotProvidedCount(acquired.Keys, spec.provided.Keys);
      forall t | t in spec.requested && t !in spec.provided
        ensures fresh(acquired[t]) && acquired[t].layout == LayoutGeneral
      {
        assert acquired[t] in made;
      }
    }

    /**
     * The loop of `acquire_attachments` over the requested types, one type per call on the
     * types still to visit (`todo`); `made` collects the images created so far.
     */
    static method AcquireFrom(acquired: map<AttachmentType, Image.Image2D>, ghost made: set<Image.Image2D>,
                              todo: set<AttachmentType>, spec: Spec, renderer: Renderer.RendererData)
      returns (result: map<AttachmentType, Image.Image2D>, ghost made': set<Image.Image2D>)
      requires Partial(acquired, spec) && Made(acquired, spec, made)
      requires forall t :: t in spec.requested && t !in todo ==> t in acquired
      requires forall o :: o in made ==> o.layout == LayoutGeneral
      modifies renderer
      ensures Partial(result, spec) && Made(result, spec, made')
      ensures forall t :: t in spec.requested ==> t in result
      ensures forall o :: o in made' ==> o in made || fresh(o)
      ensures forall o :: o in made' ==> o.layout == LayoutGeneral
      ensures renderer.refCount + NotProvided(acquired.Keys, spec.provided.Keys) ==
              old(renderer.refCount) + NotProvided(result.Keys, spec.provided.Keys)
      ensures renderer.shouldShutdown == old(renderer.shouldShutdown) && renderer.teardowns == old(renderer.teardowns)
      decreases todo
    {
      if todo == {} {
        return acquired, made;
      }
      var t :| t in todo;
      var next, created, made1 := AcquireOne(acquired, t, spec, renderer, made);
      result, made' := AcquireFrom(next, made1, todo - {t}, spec, renderer);
    }

    /** Once every requested type is held, the images are exactly the provided and the created ones. */
    static lemma Completed(acquired: map<AttachmentType, Image.Image2D>, spec: Spec)
      requires Partial(acquired, spec)
      requires forall t :: t in spec.requested ==> t in acquired
      ensures acquired.Keys == spec.provided.Keys + spec.requested.Keys
      ensures acquired.Keys - spec.provided.Keys == spec.requested.Keys - spec.provided.Keys
      ensures forall t :: t in spec.provided ==> acquired[t] == spec.provided[t]
      ensures forall t :: t in spec.requested && t !in spec.provided ==>
        CreatedFor(acquired[t], t, spec.requested[t], spec.width, spec.height)
    {
    }

    /** Every image held for a type that was not provided is one of `made`. */
    static ghost predicate Made(acquired: map<AttachmentType, Image.Image2D>, spec: Spec, made: set<Image.Image2D>)
    {
      forall t :: t in acquired && t !in spec.provided ==> acquired[t] in made
    }

    /**
     * One step of `acquire_attachments`: a requested type not yet acquired gets a new image,
     * which takes a renderer reference.
     */
    static method AcquireOne(acquired: map<AttachmentType, Image.Image2D>, t: AttachmentType, spec: Spec,
                             renderer: Renderer.RendererData, ghost made: set<Image.Image2D>)
      returns (next: map<AttachmentType, Image.Image2D>, created: bool, ghost made': set<Image.Image2D>)
      requires Partial(acquired, spec) && Made(acquired, spec, made)
      requires forall o :: o in made ==> o.layout == LayoutGeneral
      modifies renderer
      ensures Partial(next, spec) && Made(next, spec, made')
      ensures created <==> t in spec.requested && t !in acquired
      ensures next.Keys == acquired.Keys + (if created then {t} else {})
      ensures forall o :: o in made' ==> o in made || fresh(o)
      ensures forall o :: o in made' ==> o.layout == LayoutGeneral
      ensures renderer.refCount + NotProvided(acquired.Keys, spec.provided.Keys) ==
              old(renderer.refCount) + NotProvided(next.Keys, spec.provided.Keys)
      ensures renderer.shouldShutdown == old(renderer.shouldShutdown) && renderer.teardowns == old(renderer.teardowns)
    {
      next, made' := acquired, made;
      created := t in spec.requested && t !in acquired;
      if created {
        var image := CreateFor(t, spec.requested[t], spec.width, spec.height, renderer);
        PartialAdd(acquired, spec, t, image);
        next := acquired[t := image];
        made' := made + {image};
      }
    }

    /** The image `acquire_attachments` creates for a type, which takes a renderer reference. */
    static method CreateFor(t: AttachmentType, format: nat, width: nat, height: nat, renderer: Renderer.RendererData)
      returns (image: Image.Image2D)
      modifies renderer
      ensures fresh(image) && image.layout == LayoutGeneral && CreatedFor(image, t, format, width, height)
      ensures renderer.refCount == old(renderer.refCount) + 1
      ensures renderer.shouldShutdown == old(renderer.shouldShutdown) && renderer.teardowns == old(renderer.teardowns)
    {
      image := new Image.Image2D(format, width, height, UsageFor(t), AspectFor(t, format), renderer);
    }

    /** Adding an image created for a requested type that was not provided keeps `Partial`. */
    static lemma PartialAdd(acquired: map<AttachmentType, Image.Image2D>, spec: Spec, t: AttachmentType, image: Image.Image2D)
      requires Partial(acquired, spec) && t in spec.requested && t !in spec.provided
      requires CreatedFor(image, t, spec.requested[t], spec.width, spec.height)
      ensures Partial(acquired[t := image], spec)
    {
    }

    /** `create_framebuffer`: the handle is created, then every dependent's recreate callback runs. */
    method CreateFramebuffer()
      modifies this`events
      ensures events == old(events) + [FramebufferCreated, DependentsRecreated(dependents.Keys)]
      ensures extent == old(extent) && renderPassOwned == old(renderPassOwned)
      ensures attachments == old(attachments) && dependents == old(dependents)
    {
      events := events + [FramebufferCreated, DependentsRecreated(dependents.Keys)];
    }

    /** `destroy_framebuffer`: the dependents' destroy callbacks run first, but only when asked for. */
    method DestroyFramebuffer(invokeCallbacks: bool)
      modifies this`events
      ensures events == old(events) + (if invokeCallbacks then [DependentsDestroyed(dependents.Keys)] else []) + [FramebufferDestroyed]
      ensures extent == old(extent) && renderPassOwned == old(renderPassOwned)
      ensures attachments == old(attachments) && dependents == old(dependents)
    {
      if invokeCallbacks {
        events := events + [DependentsDestroyed(dependents.Keys)];
      }
      events := events + [FramebufferDestroyed];
    }

    /** The destructor: the framebuffer goes without callbacks, and the render pass only if this framebuffer created it. */
    method Dispose(renderer: Renderer.RendererData)
      requires renderer.refCount > 0
      modifies this, renderer
      ensures events == old(events) + [FramebufferDestroyed] + (if renderPassOwned then [RenderPassDestroyed] else [])
      ensures renderer.refCount == old(renderer.refCount) - 1
      ensures renderer.teardowns == old(renderer.teardowns) + (if renderer.refCount == 0 && renderer.shouldShutdown then 1 else 0)
    {
      DestroyFramebuffer(false);
      if renderPassOwned {
        events := events + [RenderPassDestroyed];
      }
      renderer.RemoveRef();
    }

    /** `add_reload_callbacks`: a dependent already registered keeps its callbacks. */
    method AddReloadCallbacks(id: nat, destroy: nat, recreate: nat)
      modifies this
      ensures id in old(dependents) ==> dependents == old(dependents)
      ensures id !in old(dependents) ==> dependents == old(dependents)[id := Callbacks(destroy, recreate)]
      ensures extent == old(extent) && renderPassOwned == old(renderPassOwned)
      ensures attachments == old(attachments) && events == old(events)
    {
      if id in dependents {
        return;
      }
      dependents := dependents[id := Callbacks(destroy, recreate)];
    }

    /** `remove_reload_callbacks`. */
    method RemoveReloadCallbacks(id: nat)
      modifies this
      ensures dependents == old(dependents) - {id}
      ensures extent == old(extent) && renderPassOwned == old(renderPassOwned)
      ensures attachments == old(attachments) && events == old(events)
    {
      dependents := dependents - {id};
    }

    /** `get_attachment_types`: exactly the types with an attachment. */
    method GetAttachmentTypes() returns (types: set<AttachmentType>)
      ensures types == attachments.Keys
    {
      types := {};
      for i := 0 to |AllTypes|
        invariant types == set j | 0 <= j < i && AllTypes[j] in attachments :: AllTypes[j]
      {
        if AllTypes[i] in attachments {
          types := types + {AllTypes[i]};
        }
      }
      ListedTypes(attachments.Keys);
    }

    /** `get_attachment`: the image for a type, or null; the table is not changed. */
    function GetAttachment(t: AttachmentType): (image: Image.Image2D?)
      reads this
      ensures image == null <==> t !in attachments
      ensures image != null ==> image == attachments[t]
    {
      if t in attachments then attachments[t] else null
    }

    /** `set_attachment`: the framebuffer is rebuilt around the new attachment, with the dependents' callbacks. */
    method SetAttachment(t: AttachmentType, image: Image.Image2D)
      modifies this
      ensures attachments == old(attachments)[t := image]
      ensures events == old(events) + [DependentsDestroyed(dependents.Keys), FramebufferDestroyed,
                                        FramebufferCreated, DependentsRecreated(dependents.Keys)]
      ensures extent == old(extent) && renderPassOwned == old(renderPassOwned) && dependents == old(dependents)
    {
      DestroyFramebuffer(true);
      attachments := attachments[t := image];
      CreateFramebuffer();
    }

    /** `reload`: the framebuffer is destroyed and recreated, with the dependents' callbacks. */
    method Reload()
      modifies this
      ensures events == old(events) + [DependentsDestroyed(dependents.Keys), FramebufferDestroyed,
                                        FramebufferCreated, DependentsRecreated(dependents.Keys)]
      ensures extent == old(extent) && renderPassOwned == old(renderPassOwned)
      ensures attachments == old(attachments) && dependents == old(dependents)
    {
      DestroyFramebuffer(true);
      CreateFramebuffer();
    }

    /**
     * `resize`: the extent becomes the new size and every attachment type is requested
     * again with the format of its current image, so each gets a new image of the new size
     * (and a renderer reference).
     */
    method Resize(newSize: Extent, renderer: Renderer.RendererData)
      modifies this`extent, this`attachments, this`events, renderer
      ensures renderer.refCount == old(renderer.refCount) + |old(attachments).Keys|
      ensures renderer.shouldShutdown == old(renderer.shouldShutdown) && renderer.teardowns == old(renderer.teardowns)
      ensures extent == newSize
      ensures attachments.Keys == old(attachments).Keys
      ensures forall t :: t in attachments ==>
        fresh(attachments[t]) && attachments[t].layout == LayoutGeneral && CreatedFor(attachments[t], t, old(attachments)[t].format, newSize.width, newSize.height)
      ensures events == old(events) + [DependentsDestroyed(dependents.Keys), FramebufferDestroyed,
                                        FramebufferCreated, DependentsRecreated(dependents.Keys)]
      ensures renderPassOwned == old(renderPassOwned) && dependents == old(dependents)
    {
      DestroyFramebuffer(true);
      extent := newSize;
      Reacquire(newSize, renderer);
      CreateFramebuffer();
    }

    /** The middle of `resize`: every held type is acquired again, at the new size. */
    method Reacquire(newSize: Extent, renderer: Renderer.RendererData)
      modifies this`attachments, renderer
      ensures renderer.refCount == old(renderer.refCount) + |old(attachments).Keys|
      ensures renderer.shouldShutdown == old(renderer.shouldShutdown) && renderer.teardowns == old(renderer.teardowns)
      ensures attachments.Keys == old(attachments).Keys
      ensures forall t :: t in attachments ==>
        fresh(attachments[t]) && attachments[t].layout == LayoutGeneral && CreatedFor(attachments[t], t, old(attachments)[t].format, newSize.width, newSize.height)
    {
      var spec := ResizeSpec(attachments, newSize);
      AcquireAttachments(spec, renderer);
    }
  }

  /** The spec `resize` acquires with: nothing provided, every held type requested in its current format. */
  function ResizeSpec(attachments: map<AttachmentType, Image.Image2D>, newSize: Extent): (spec: Spec)
    ensures spec.width == newSize.width && spec.height == newSize.height
    ensures spec.provided == map[] && spec.requested.Keys == attachments.Keys
    ensures spec.provided.Keys + spec.requested.Keys == attachments.Keys
    ensures |spec.requested.Keys - spec.provided.Keys| == |attachments.Keys|
    ensures forall t :: t in spec.requested ==> spec.requested[t] == attachments[t].format
  {
    var spec := Spec(newSize.width, newSize.height, None, None, Formats(attachments), map[]);
    assert spec.requested.Keys - spec.provided.Keys == attachments.Keys;
    spec
  }

  /**
   * The constructor with its checks: a zero width or height is refused (the C++ throws);
   * otherwise the framebuffer exists with the given size and holds a renderer reference.
   */
  method New(spec: Spec, renderer: Renderer.RendererData) returns (framebuffer: Framebuffer?)
    modifies renderer
    ensures framebuffer == null <==> spec.width == 0 || spec.height == 0
    ensures framebuffer != null ==> fresh(framebuffer) && framebuffer.extent == Extent(spec.width, spec.height)
    ensures framebuffer != null ==> (framebuffer.renderPassOwned <==> spec.renderPass.None?)
    ensures framebuffer != null ==> framebuffer.attachments.Keys == spec.provided.Keys + spec.requested.Keys
    ensures framebuffer != null ==> forall t :: t in spec.requested && t !in spec.provided ==>
      fresh(framebuffer.attachments[t]) && framebuffer.attachments[t].layout == LayoutGeneral && CreatedFor(framebuffer.attachments[t], t, spec.requested[t], spec.width, spec.height)
    ensures renderer.refCount ==
      old(renderer.refCount) + (if framebuffer != null then |spec.requested.Keys - spec.provided.Keys| + 1 else 0)
    ensures renderer.shouldShutdown == old(renderer.shouldShutdown) && renderer.teardowns == old(renderer.teardowns)
  {
    if spec.width == 0 || spec.height == 0 {
      return null;
    }
    framebuffer := new Framebuffer(spec, renderer);
    renderer.AddRef();
  }
}
