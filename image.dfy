/**
 * Image bookkeeping of src/image.cpp: the layout → pipeline-stage/access table used for
 * layout-transition barriers, the layout an image records after each transition, the
 * channel-count → format rule and staging size for uploaded pixel data, the size rule
 * of `load_image`, and the face layout of a cube map cut out of a 4:3 cross image.
 * Memory allocation, command recording and the pixel copies themselves are foreign.
 */
module Image {
  import opened Wrappers
  import opened Vulkan
  import Util
  import Paths
  import Renderer

  /** `VkPipelineStageFlagBits` values. */
  const StageTopOfPipe: bv32 := 0x1
  const StageFragmentShader: bv32 := 0x80
  const StageTransfer: bv32 := 0x1000
  const StageAllGraphics: bv32 := 0x8000
  const StageAllCommands: bv32 := 0x10000

  /** `VkAccessFlagBits` values. */
  const AccessShaderRead: bv32 := 0x20
  const AccessShaderWrite: bv32 := 0x40
  const AccessColorAttachmentWrite: bv32 := 0x100
  const AccessDepthStencilRead: bv32 := 0x200
  const AccessDepthStencilWrite: bv32 := 0x400
  const AccessTransferRead: bv32 := 0x800
  const AccessTransferWrite: bv32 := 0x1000

  /** Every access bit that writes. */
  const WriteAccess: bv32 := AccessShaderWrite | AccessColorAttachmentWrite | AccessDepthStencilWrite | AccessTransferWrite

  /** The layouts a barrier can start or end in. */
  const SupportedLayouts: set<nat> := {LayoutUndefined, LayoutTransferSrc, LayoutTransferDst, LayoutShaderReadOnly,
                                       LayoutGeneral, LayoutDepthStencilAttachment, LayoutColorAttachment}

  /** The layouts in which the image is written. */
  const WrittenLayouts: set<nat> := {LayoutTransferDst, LayoutGeneral, LayoutDepthStencilAttachment, LayoutColorAttachment}

  /**
   * `get_stage_and_mask`: the pipeline stage and the access mask that go with a layout;
   * any other layout is an error. Only the undefined layout has no access, and the
   * access includes a write exactly for the layouts in which the image is written.
   */
  function StageAndMask(layout: nat): (r: Result<(bv32, bv32)>)
    ensures r.Ok? <==> layout in SupportedLayouts
    ensures r.Ok? ==> r.value.0 != 0
    ensures r.Ok? ==> (r.value.1 == 0 <==> layout == LayoutUndefined)
    ensures r.Ok? ==> (r.value.1 & WriteAccess != 0 <==> layout in WrittenLayouts)
  {
    if layout == LayoutUndefined then Ok((StageTopOfPipe, 0))
    else if layout == LayoutTransferSrc then Ok((StageTransfer, AccessTransferRead))
    else if layout == LayoutTransferDst then Ok((StageTransfer, AccessTransferWrite))
    else if layout == LayoutShaderReadOnly then Ok((StageFragmentShader, AccessShaderRead))
    else if layout == LayoutGeneral then Ok((StageAllGraphics | StageAllCommands, AccessShaderRead | AccessShaderWrite))
    else if layout == LayoutDepthStencilAttachment then
      Ok((StageAllGraphics, AccessDepthStencilWrite | AccessDepthStencilRead | AccessShaderRead))
    else if layout == LayoutColorAttachment then Ok((StageAllGraphics, AccessColorAttachmentWrite | AccessShaderRead))
    else Err("unimplemented/unsupported image layout!")
  }

  /** The parts of `VkImageMemoryBarrier` and the stage pair that `transition_image_layout` fills in. */
  datatype Barrier = Barrier(
    oldLayout: nat, newLayout: nat,
    srcStage: bv32, srcAccess: bv32,
    dstStage: bv32, dstAccess: bv32,
    aspect: bv32, layerCount: nat)

  /** A recorded transition, and whether it was recorded on a one-off command buffer of its own. */
  datatype Transition = Transition(barrier: Barrier, oneOff: bool)

  /**
   * `transition_image_layout`: the source half of the barrier comes from the old layout,
   * the destination half from the new one; a one-off command buffer is used (and
   * submitted) when the caller passes none. Either layout being unsupported is an error.
   */
  function TransitionImageLayout(oldLayout: nat, newLayout: nat, aspect: bv32, layerCount: nat, commandBufferGiven: bool): (r: Result<Transition>)
    ensures r.Ok? <==> oldLayout in SupportedLayouts && newLayout in SupportedLayouts
    ensures r.Ok? ==> r.value.barrier.oldLayout == oldLayout && r.value.barrier.newLayout == newLayout
    ensures r.Ok? ==> (r.value.barrier.srcStage, r.value.barrier.srcAccess) == StageAndMask(oldLayout).value
    ensures r.Ok? ==> (r.value.barrier.dstStage, r.value.barrier.dstAccess) == StageAndMask(newLayout).value
    ensures r.Ok? ==> r.value.barrier.aspect == aspect && r.value.barrier.layerCount == layerCount
    ensures r.Ok? ==> (r.value.oneOff <==> !commandBufferGiven)
  {
    var source := StageAndMask(oldLayout);
    var destination := StageAndMask(newLayout);
    if source.Err? then Err(source.message)
    else if destination.Err? then Err(destination.message)
    else Ok(Transition(
      Barrier(oldLayout, newLayout, source.value.0, source.value.1, destination.value.0, destination.value.1, aspect, layerCount),
      !commandBufferGiven))
  }

  /**
   * Two transitions in a row: the second barrier waits on exactly the stage and access
   * the first one made available.
   */
  lemma TransitionsChain(a: nat, b: nat, c: nat, aspect: bv32, layers: nat, given: bool)
    requires a in SupportedLayouts && b in SupportedLayouts && c in SupportedLayouts
    ensures var first := TransitionImageLayout(a, b, aspect, layers, given).value.barrier;
      var second := TransitionImageLayout(b, c, aspect, layers, given).value.barrier;
      second.srcStage == first.dstStage && second.srcAccess == first.dstAccess
  {
  }

  // ---------------------------------------------------------------- pixel data

  /** `image_data`: tightly packed pixel bytes with their dimensions. */
  datatype ImageData = ImageData(data: seq<Util.Byte>, width: nat, height: nat, channels: int)

  /** The format of uploaded pixel data, by channel count: RGBA or RGB in sRGB; anything else is an error. */
  function ChannelFormat(channels: int): (r: Result<nat>)
    ensures r.Ok? <==> channels == 3 || channels == 4
    ensures r.Ok? ==> r.value in {FormatR8G8B8A8Srgb, FormatR8G8B8Srgb}
  {
    if channels == 4 then Ok(FormatR8G8B8A8Srgb)
    else if channels == 3 then Ok(FormatR8G8B8Srgb)
    else Err("invalid image format!")
  }

  /** The channel count of an uploadable format. */
  function FormatChannels(format: nat): (channels: nat)
    requires format in {FormatR8G8B8A8Srgb, FormatR8G8B8Srgb}
  {
    if format == FormatR8G8B8A8Srgb then 4 else 3
  }

  /** The channel count can be read back from the chosen format. */
  lemma ChannelFormatRoundTrip(channels: int)
    requires ChannelFormat(channels).Ok?
    ensures FormatChannels(ChannelFormat(channels).value) == channels
  {
  }

  /** What a decoder (stb_image or libktx) hands back for a file it could read. */
  datatype Decoded = Decoded(width: nat, height: nat, channels: nat, pixels: seq<Util.Byte>)

  /** The number of bytes `load_image` keeps for a decoded file (KTX files are taken to have four channels). */
  function LoadedSize(decoded: Decoded, ktx: bool): nat
  {
    decoded.width * decoded.height * (if ktx then 4 else decoded.channels)
  }

  /**
   * `image::load_image`: nothing for a path that does not exist or a file the decoder
   * rejects; otherwise width × height × channels bytes. A KTX texture without image
   * data leaves the bytes zero.
   */
  function LoadImage(path: string, fileExists: bool, decoded: Option<Decoded>): (r: Option<ImageData>)
    requires decoded.Some? ==> |decoded.value.pixels| == 0 || |decoded.value.pixels| >= LoadedSize(decoded.value, Paths.Extension(path) == ".ktx")
    requires decoded.Some? && Paths.Extension(path) != ".ktx" ==> |decoded.value.pixels| >= LoadedSize(decoded.value, false)
    ensures r.Some? <==> fileExists && decoded.Some?
    ensures r.Some? ==> |r.value.data| == r.value.width * r.value.height * r.value.channels
    ensures r.Some? ==> r.value.width == decoded.value.width && r.value.height == decoded.value.height
    ensures r.Some? && Paths.Extension(path) == ".ktx" ==> r.value.channels == 4
    ensures r.Some? && Paths.Extension(path) != ".ktx" ==> r.value.channels == decoded.value.channels
  {
    if !fileExists || decoded.None? then None
    else
      var d := decoded.value;
      var ktx := Paths.Extension(path) == ".ktx";
      var size := LoadedSize(d, ktx);
      var bytes := if ktx && |d.pixels| == 0 then seq(size, _ => 0 as Util.Byte) else d.pixels[..size];
      Some(ImageData(bytes, d.width, d.height, if ktx then 4 else d.channels))
  }

  // ---------------------------------------------------------------- images

  /** An `image2d`: its format, aspect, size and the layout it was last transitioned to. */
  class Image2D {
    const format: nat
    const aspect: bv32
    const width: nat
    const height: nat
    /** The usage the image was allocated with. */
    const usage: bv32
    var layout: nat

    /**
     * The constructor for internal images (attachments): a renderer reference, then the
     * image is allocated in the undefined layout and transitioned to the general layout.
     */
    constructor (format: nat, width: nat, height: nat, usage: bv32, aspect: bv32, renderer: Renderer.RendererData)
      modifies renderer
      ensures this.format == format && this.width == width && this.height == height
      ensures this.usage == usage && this.aspect == aspect
      ensures layout == LayoutGeneral
      ensures renderer.refCount == old(renderer.refCount) + 1
      ensures renderer.shouldShutdown == old(renderer.shouldShutdown) && renderer.teardowns == old(renderer.teardowns)
    {
      this.format := format;
      this.aspect := aspect;
      this.width := width;
      this.height := height;
      this.usage := usage;
      layout := LayoutUndefined;
      new;
      renderer.AddRef();
      var transition := Transition(LayoutGeneral);
    }

    /**
     * The image `create_image_from_data` leaves behind: a colour image usable as transfer
     * source and destination and for sampling, in the general layout. (The renderer
     * reference of that constructor is taken by `FromData`.)
     */
    constructor Uploaded(format: nat, width: nat, height: nat)
      ensures this.format == format && this.width == width && this.height == height
      ensures usage == UsageTransferDst | UsageTransferSrc | UsageSampled && aspect == AspectColor
      ensures layout == LayoutGeneral
    {
      this.format := format;
      aspect := AspectColor;
      this.width := width;
      this.height := height;
      usage := UsageTransferDst | UsageTransferSrc | UsageSampled;
      layout := LayoutGeneral;
    }

    /** `transition`: a barrier from the current layout to the new one, after which the new layout is recorded. */
    method Transition(newLayout: nat) returns (r: Result<Transition>)
      modifies this
      ensures r.Ok? <==> old(layout) in SupportedLayouts && newLayout in SupportedLayouts
      ensures r.Ok? ==> r.value.barrier.oldLayout == old(layout) && r.value.barrier.layerCount == 1 && r.value.oneOff
      ensures r == TransitionImageLayout(old(layout), newLayout, aspect, 1, false)
      ensures layout == if r.Ok? then newLayout else old(layout)
    {
      r := TransitionImageLayout(layout, newLayout, aspect, 1, false);
      if r.Ok? {
        layout := newLayout;
      }
    }

    /** The destructor: the view and the memory go, and the renderer reference is returned. */
    method Dispose(renderer: Renderer.RendererData)
      requires renderer.refCount > 0
      modifies renderer
      ensures renderer.refCount == old(renderer.refCount) - 1
      ensures renderer.teardowns == old(renderer.teardowns) + (if renderer.refCount == 0 && renderer.shouldShutdown then 1 else 0)
    {
      renderer.RemoveRef();
    }
  }

  /**
   * The `image2d` constructor from pixel data (`create_image_from_data`): the format
   * follows the channel count, a staging buffer of width × height × channels bytes is
   * filled, and the image ends in the general layout after going through
   * transfer-destination. An unsupported channel count is an error, thrown after the
   * renderer reference was taken, so that reference stays taken.
   */
  method FromData(data: ImageData, renderer: Renderer.RendererData) returns (image: Image2D?, stagingSize: nat, transitions: seq<Transition>)
    modifies renderer
    ensures renderer.refCount == old(renderer.refCount) + 1
    ensures renderer.shouldShutdown == old(renderer.shouldShutdown) && renderer.teardowns == old(renderer.teardowns)
    ensures image == null <==> ChannelFormat(data.channels).Err?
    ensures image != null ==> fresh(image) && image.format == ChannelFormat(data.channels).value
    ensures image != null ==> image.width == data.width && image.height == data.height && image.layout == LayoutGeneral
    ensures image != null ==> stagingSize == data.width * data.height * data.channels
    ensures image != null ==> |transitions| == 2
    ensures image != null ==> transitions[0].barrier.oldLayout == LayoutUndefined && transitions[0].barrier.newLayout == LayoutTransferDst
    ensures image != null ==> transitions[1].barrier.oldLayout == LayoutTransferDst && transitions[1].barrier.newLayout == LayoutGeneral
    ensures image != null ==> !transitions[0].oneOff && !transitions[1].oneOff
  {
    renderer.AddRef();
    var format := ChannelFormat(data.channels);
    if format.Err? {
      return null, 0, [];
    }
    stagingSize := data.width * data.height * data.channels;
    var toTransfer := TransitionImageLayout(LayoutUndefined, LayoutTransferDst, AspectColor, 1, true);
    var toGeneral := TransitionImageLayout(LayoutTransferDst, LayoutGeneral, AspectColor, 1, true);
    transitions := [toTransfer.value, toGeneral.value];
    image := new Image2D.Uploaded(format.value, data.width, data.height);
  }

  /** `image_cube::cube_face_count`. */
  const CubeFaceCount: nat := 6

  /** An `image_cube`: six array layers sharing one format, aspect and layout. */
  class ImageCube {
    const format: nat
    const aspect: bv32
    var layout: nat

    /**
     * The constructor for empty cube maps: a renderer reference, then the image is
     * allocated undefined and transitioned to general on all six layers.
     */
    constructor (format: nat, aspect: bv32, renderer: Renderer.RendererData)
      modifies renderer
      ensures this.format == format && this.aspect == aspect && layout == LayoutGeneral
      ensures renderer.refCount == old(renderer.refCount) + 1
      ensures renderer.shouldShutdown == old(renderer.shouldShutdown) && renderer.teardowns == old(renderer.teardowns)
    {
      this.format := format;
      this.aspect := aspect;
      layout := LayoutUndefined;
      new;
      renderer.AddRef();
      var transition := Transition(LayoutGeneral);
    }

    /** The destructor: the view and the memory go, and the renderer reference is returned. */
    method Dispose(renderer: Renderer.RendererData)
      requires renderer.refCount > 0
      modifies renderer
      ensures renderer.refCount == old(renderer.refCount) - 1
      ensures renderer.teardowns == old(renderer.teardowns) + (if renderer.refCount == 0 && renderer.shouldShutdown then 1 else 0)
    {
      renderer.RemoveRef();
    }

    /** `transition`: as for 2D images, over all six layers. */
    method Transition(newLayout: nat) returns (r: Result<Transition>)
      modifies this
      ensures r.Ok? <==> old(layout) in SupportedLayouts && newLayout in SupportedLayouts
      ensures r.Ok? ==> r.value.barrier.oldLayout == old(layout) && r.value.barrier.layerCount == CubeFaceCount && r.value.oneOff
      ensures r == TransitionImageLayout(old(layout), newLayout, aspect, CubeFaceCount, false)
      ensures layout == if r.Ok? then newLayout else old(layout)
    {
      r := TransitionImageLayout(layout, newLayout, aspect, CubeFaceCount, false);
      if r.Ok? {
        layout := newLayout;
      }
    }
  }

  /** A source offset in the cross image. */
  datatype Offset = Offset(x: nat, y: nat)

  /**
   * The offsets of the six faces in a cross image of the given size, in layer order:
   * right, left, top, bottom, front, back.
   */
  function FaceOffsets(width: nat, height: nat): (offsets: seq<Offset>)
    ensures |offsets| == CubeFaceCount
  {
    [Offset(width / 2, height / 3), Offset(0, height / 3), Offset(width / 4, 0),
     Offset(width / 4, height * 2 / 3), Offset(width / 4, height / 3), Offset(width * 3 / 4, height / 3)]
  }

  /** One `VkImageCopy` region: from an offset in the source to one layer of the cube. */
  datatype CopyRegion = CopyRegion(source: Offset, layer: nat, extent: Extent)

  /**
   * The copy regions of `image_cube::from_image`: face k is copied from its offset in the
   * cross image to array layer k, each a quarter of the width by a third of the height.
   */
  method FaceRegions(width: nat, height: nat) returns (regions: seq<CopyRegion>)
    ensures |regions| == CubeFaceCount
    ensures forall k :: 0 <= k < CubeFaceCount ==>
      regions[k] == CopyRegion(FaceOffsets(width, height)[k], k, Extent(width / 4, height / 3))
  {
    var offsets := FaceOffsets(width, height);
    var extent := Extent(width / 4, height / 3);
    regions := [];
    for face := 0 to CubeFaceCount
      invariant |regions| == face
      invariant forall k :: 0 <= k < face ==> regions[k] == CopyRegion(offsets[k], k, extent)
    {
      regions := regions + [CopyRegion(offsets[face], face, extent)];
    }
  }

  /** The rectangle a face occupies in the cross image lies inside the image. */
  predicate InsideSource(o: Offset, width: nat, height: nat)
  {
    o.x + width / 4 <= width && o.y + height / 3 <= height
  }

  /** Two face rectangles of the cross image do not overlap. */
  predicate Apart(a: Offset, b: Offset, width: nat, height: nat)
  {
    a.x + width / 4 <= b.x || b.x + width / 4 <= a.x || a.y + height / 3 <= b.y || b.y + height / 3 <= a.y
  }

  /** Every face is read from inside the cross image, and no two faces read the same pixel. */
  lemma FacesTileSource(width: nat, height: nat)
    ensures forall k :: 0 <= k < CubeFaceCount ==> InsideSource(FaceOffsets(width, height)[k], width, height)
    ensures forall j, k :: 0 <= j < k < CubeFaceCount ==> Apart(FaceOffsets(width, height)[j], FaceOffsets(width, height)[k], width, height)
  {
    var q := width / 4;
    var t := height / 3;
    assert width == 4 * q + width % 4;
    assert height == 3 * t + height % 3;
    assert width / 2 == 2 * q + (width % 4) / 2;
    assert width * 3 / 4 == 3 * q + (3 * (width % 4)) / 4;
    assert height * 2 / 3 == 2 * t + (2 * (height % 3)) / 3;
  }
}
