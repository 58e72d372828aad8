/**
 * The selection rules and the rebuild order of src/swapchain.cpp: surface format,
 * present mode, extent, image count and sharing mode as `create_swapchain` chooses
 * them from the surface's reported support, and the order in which `reload` tears
 * down and rebuilds the swapchain and the pipelines that depend on it.
 */
module Swapchain {
  import Renderer
  import opened Vulkan

  /** `VK_COLOR_SPACE_SRGB_NONLINEAR_KHR`. */
  const ColorSpaceSrgbNonlinear: nat := 0
  /** `VK_PRESENT_MODE_MAILBOX_KHR` and `VK_PRESENT_MODE_FIFO_KHR`. */
  const PresentModeMailbox: nat := 1
  const PresentModeFifo: nat := 2
  /** `VK_SHARING_MODE_EXCLUSIVE` and `VK_SHARING_MODE_CONCURRENT`. */
  const SharingExclusive: nat := 0
  const SharingConcurrent: nat := 1
  /** `std::numeric_limits<uint32_t>::max()`, the "extent decided by the swapchain" marker. */
  const UInt32Max: nat := 0xFFFF_FFFF

  datatype SurfaceFormat = SurfaceFormat(format: nat, colorSpace: nat)

  /** The parts of `VkSurfaceCapabilitiesKHR` the swapchain reads. */
  datatype Capabilities = Capabilities(
    currentExtent: Extent,
    minImageExtent: Extent,
    maxImageExtent: Extent,
    minImageCount: nat,
    maxImageCount: nat)

  /** `swapchain_support_details`. */
  datatype SupportDetails = SupportDetails(capabilities: Capabilities, formats: seq<SurfaceFormat>, presentModes: seq<nat>)

  predicate Preferred(format: SurfaceFormat)
  {
    format.format == FormatR8G8B8A8Srgb && format.colorSpace == ColorSpaceSrgbNonlinear
  }

  /** The format `choose_format` settles on: sRGB RGBA with the sRGB colour space when offered, otherwise the first offered. */
  function FormatChoice(formats: seq<SurfaceFormat>): SurfaceFormat
    requires |formats| > 0
  {
    if exists i :: 0 <= i < |formats| && Preferred(formats[i])
    then SurfaceFormat(FormatR8G8B8A8Srgb, ColorSpaceSrgbNonlinear)
    else formats[0]
  }

  /** The mode `choose_present_mode` settles on. */
  function PresentModeChoice(presentModes: seq<nat>): nat
  {
    if PresentModeMailbox in presentModes then PresentModeMailbox else PresentModeFifo
  }

  /** `choose_format`: the sRGB RGBA format when the surface offers it, otherwise the first one offered. */
  method ChooseFormat(formats: seq<SurfaceFormat>) returns (chosen: SurfaceFormat)
    requires |formats| > 0
    ensures chosen == FormatChoice(formats)
    ensures chosen in formats
    ensures (exists i :: 0 <= i < |formats| && Preferred(formats[i])) ==> Preferred(chosen)
    ensures (forall i :: 0 <= i < |formats| ==> !Preferred(formats[i])) ==> chosen == formats[0]
  {
    for i := 0 to |formats|
      invariant forall j :: 0 <= j < i ==> !Preferred(formats[j])
    {
      if Preferred(formats[i]) {
        return formats[i];
      }
    }
    chosen := formats[0];
  }

  /** `choose_present_mode`: mailbox when offered, otherwise FIFO (which every surface supports). */
  method ChoosePresentMode(presentModes: seq<nat>) returns (mode: nat)
    ensures mode == PresentModeMailbox <==> PresentModeMailbox in presentModes
    ensures mode != PresentModeMailbox ==> mode == PresentModeFifo
    ensures mode == PresentModeChoice(presentModes)
  {
    for i := 0 to |presentModes|
      invariant PresentModeMailbox !in presentModes[..i]
    {
      if presentModes[i] == PresentModeMailbox {
        return presentModes[i];
      }
    }
    assert presentModes[..|presentModes|] == presentModes;
    mode := PresentModeFifo;
  }

  /** `std::clamp(value, low, high)` as libstdc++ evaluates it. */
  function Clamp(value: nat, low: nat, high: nat): (r: nat)
    ensures low <= high ==> low <= r <= high
    ensures low <= value <= high ==> r == value
  {
    if value < low then low else if high < value then high else value
  }

  /**
   * `choose_extent` as written: the surface's current extent unless its width is the
   * UINT32_MAX marker, in which case the window size is clamped to the surface limits —
   * with the minimum WIDTH as the lower bound of the height.
   */
  function ChooseExtentAsWritten(width: nat, height: nat, capabilities: Capabilities): (extent: Extent)
    ensures capabilities.currentExtent.width != UInt32Max ==> extent == capabilities.currentExtent
  {
    if capabilities.currentExtent.width != UInt32Max then capabilities.currentExtent
    else Extent(
      Clamp(width, capabilities.minImageExtent.width, capabilities.maxImageExtent.width),
      Clamp(height, capabilities.minImageExtent.width, capabilities.maxImageExtent.height))
  }

  /** A window 50 pixels high on a surface whose images must be at least 100 high gets a 50-high extent. */
  lemma ChooseExtentAsWrittenBelowMinimum()
    ensures
      var capabilities := Capabilities(Extent(UInt32Max, UInt32Max), Extent(1, 100), Extent(1000, 1000), 2, 3);
      var extent := ChooseExtentAsWritten(500, 50, capabilities);
      extent.height == 50 && extent.height < capabilities.minImageExtent.height
  {
  }

  /** `choose_extent` as evidently intended: each dimension clamped to its own limits. */
  function ChooseExtent(width: nat, height: nat, capabilities: Capabilities): (extent: Extent)
    ensures capabilities.currentExtent.width != UInt32Max ==> extent == capabilities.currentExtent
  {
    if capabilities.currentExtent.width != UInt32Max then capabilities.currentExtent
    else Extent(
      Clamp(width, capabilities.minImageExtent.width, capabilities.maxImageExtent.width),
      Clamp(height, capabilities.minImageExtent.height, capabilities.maxImageExtent.height))
  }

  /**
   * When the swapchain decides the extent and the limits are consistent, the chosen extent
   * lies within them, and a window size already within them is kept.
   */
  lemma ChooseExtentWithinLimits(width: nat, height: nat, capabilities: Capabilities)
    requires capabilities.currentExtent.width == UInt32Max
    requires capabilities.minImageExtent.width <= capabilities.maxImageExtent.width
    requires capabilities.minImageExtent.height <= capabilities.maxImageExtent.height
    ensures var extent := ChooseExtent(width, height, capabilities);
      capabilities.minImageExtent.width <= extent.width <= capabilities.maxImageExtent.width &&
      capabilities.minImageExtent.height <= extent.height <= capabilities.maxImageExtent.height
    ensures (capabilities.minImageExtent.width <= width <= capabilities.maxImageExtent.width &&
             capabilities.minImageExtent.height <= height <= capabilities.maxImageExtent.height) ==>
      ChooseExtent(width, height, capabilities) == Extent(width, height)
  {
  }

  /**
   * The image count of `create_swapchain`: one more than the minimum, capped by the
   * maximum when the surface has one (a maximum of 0 means "no limit").
   */
  function ImageCount(capabilities: Capabilities): (count: nat)
    ensures count >= 1
    ensures capabilities.maxImageCount > 0 ==> count <= capabilities.maxImageCount
    ensures capabilities.maxImageCount == 0 || capabilities.maxImageCount > capabilities.minImageCount ==>
      count == capabilities.minImageCount + 1
    ensures capabilities.maxImageCount >= capabilities.minImageCount ==> count >= capabilities.minImageCount
  {
    var count := capabilities.minImageCount + 1;
    if capabilities.maxImageCount > 0 && count > capabilities.maxImageCount then capabilities.maxImageCount else count
  }

  /**
   * The sharing rule of `create_swapchain`: images are shared concurrently between the
   * graphics and the present family when they differ, and then both families are listed;
   * otherwise the images are exclusive and no family is listed.
   */
  function SharingMode(graphicsFamily: nat, presentFamily: nat): (sharing: (nat, seq<nat>))
    ensures sharing.0 == SharingConcurrent <==> graphicsFamily != presentFamily
    ensures sharing.0 == SharingExclusive <==> graphicsFamily == presentFamily
    ensures sharing.0 == SharingConcurrent ==> sharing.1 == [graphicsFamily, presentFamily]
    ensures sharing.0 == SharingExclusive ==> sharing.1 == []
  {
    if graphicsFamily != presentFamily then (SharingConcurrent, [graphicsFamily, presentFamily])
    else (SharingExclusive, [])
  }

  /** The fields of `VkSwapchainCreateInfoKHR` that `create_swapchain` decides. */
  datatype CreateInfo = CreateInfo(
    minImageCount: nat,
    imageFormat: nat,
    imageColorSpace: nat,
    imageExtent: Extent,
    sharingMode: nat,
    queueFamilyIndices: seq<nat>,
    presentMode: nat)

  /** What happens to the swapchain and its dependents, in order. */
  datatype Event = PipelineDestroyed(pipeline: nat) | SwapchainDestroyed | SwapchainCreated | PipelineCreated(pipeline: nat)

  function DestroyEvents(pipelines: seq<nat>): (events: seq<Event>)
    ensures |events| == |pipelines|
    ensures forall i :: 0 <= i < |pipelines| ==> events[i] == PipelineDestroyed(pipelines[i])
  {
    if pipelines == [] then [] else [PipelineDestroyed(pipelines[0])] + DestroyEvents(pipelines[1..])
  }

  function CreateEvents(pipelines: seq<nat>): (events: seq<Event>)
    ensures |events| == |pipelines|
    ensures forall i :: 0 <= i < |pipelines| ==> events[i] == PipelineCreated(pipelines[i])
  {
    if pipelines == [] then [] else [PipelineCreated(pipelines[0])] + CreateEvents(pipelines[1..])
  }

  lemma DestroyEventsAppend(pipelines: seq<nat>, p: nat)
    ensures DestroyEvents(pipelines + [p]) == DestroyEvents(pipelines) + [PipelineDestroyed(p)]
  {
  }

  lemma CreateEventsAppend(pipelines: seq<nat>, p: nat)
    ensures CreateEvents(pipelines + [p]) == CreateEvents(pipelines) + [PipelineCreated(p)]
  {
  }

  /** A `swapchain`: its format, extent and images, the pipelines built on it, and what has happened to them. */
  class Swapchain {
    var imageFormat: nat
    var extent: Extent
    /** `m_swapchain_images`: one entry per image the swapchain reports. */
    var images: seq<nat>
    /** The pipelines registered as dependents, in iteration order. */
    var dependents: seq<nat>
    var shouldResize: bool
    var events: seq<Event>

    /** The constructor takes a renderer reference and builds the swapchain for the window size. */
    constructor (renderer: Renderer.RendererData, width: nat, height: nat, support: SupportDetails,
                 graphicsFamily: nat, presentFamily: nat, swapchainImages: seq<nat>)
      requires |support.formats| > 0
      modifies renderer
      ensures renderer.refCount == old(renderer.refCount) + 1
      ensures renderer.shouldShutdown == old(renderer.shouldShutdown) && renderer.teardowns == old(renderer.teardowns)
      ensures images == swapchainImages && dependents == [] && events == [SwapchainCreated]
      ensures extent == ChooseExtent(width, height, support.capabilities)
      ensures imageFormat == FormatChoice(support.formats).format
    {
      renderer.AddRef();
      images := [];
      dependents := [];
      events := [];
      shouldResize := false;
      new;
      var info := Create(width, height, support, graphicsFamily, presentFamily, swapchainImages);
    }

    /**
     * `create`: the swapchain is created with the selections above, then its images are
     * fetched and appended to the image list.
     */
    method Create(width: nat, height: nat, support: SupportDetails, graphicsFamily: nat, presentFamily: nat,
                  swapchainImages: seq<nat>) returns (info: CreateInfo)
      requires |support.formats| > 0
      modifies this
      ensures info.minImageCount == ImageCount(support.capabilities)
      ensures info.imageExtent == ChooseExtent(width, height, support.capabilities)
      ensures (info.sharingMode, info.queueFamilyIndices) == SharingMode(graphicsFamily, presentFamily)
      ensures SurfaceFormat(info.imageFormat, info.imageColorSpace) == FormatChoice(support.formats)
      ensures info.presentMode == PresentModeChoice(support.presentModes)
      ensures imageFormat == info.imageFormat && extent == info.imageExtent
      ensures images == old(images) + swapchainImages
      ensures events == old(events) + [SwapchainCreated]
      ensures dependents == old(dependents) && shouldResize == old(shouldResize)
    {
      var format := ChooseFormat(support.formats);
      var presentMode := ChoosePresentMode(support.presentModes);
      var sharing := SharingMode(graphicsFamily, presentFamily);
      info := CreateInfo(ImageCount(support.capabilities), format.format, format.colorSpace,
        ChooseExtent(width, height, support.capabilities), sharing.0, sharing.1, presentMode);
      imageFormat := info.imageFormat;
      extent := info.imageExtent;
      events := events + [SwapchainCreated];
      for i := 0 to |swapchainImages|
        invariant images == old(images) + swapchainImages[..i]
        invariant imageFormat == info.imageFormat && extent == info.imageExtent
        invariant events == old(events) + [SwapchainCreated]
        invariant dependents == old(dependents) && shouldResize == old(shouldResize)
      {
        images := images + [swapchainImages[i]];
      }
      assert swapchainImages[..|swapchainImages|] == swapchainImages;
    }

    /** `destroy`: the images, the render pass and the swapchain go; the image list is left empty. */
    method Destroy()
      modifies this
      ensures images == []
      ensures events == old(events) + [SwapchainDestroyed]
      ensures imageFormat == old(imageFormat) && extent == old(extent)
      ensures dependents == old(dependents) && shouldResize == old(shouldResize)
    {
      images := [];
      events := events + [SwapchainDestroyed];
    }

    /**
     * `reload`: every dependent pipeline is destroyed, then the swapchain is destroyed and
     * created again, then every dependent pipeline is created again.
     */
    method Reload(width: nat, height: nat, support: SupportDetails, graphicsFamily: nat, presentFamily: nat,
                  swapchainImages: seq<nat>)
      requires |support.formats| > 0
      modifies this
      ensures events == old(events) + DestroyEvents(dependents) + [SwapchainDestroyed, SwapchainCreated] + CreateEvents(dependents)
      ensures images == swapchainImages
      ensures extent == ChooseExtent(width, height, support.capabilities)
      ensures imageFormat == FormatChoice(support.formats).format
      ensures dependents == old(dependents) && shouldResize == old(shouldResize)
    {
      DestroyDependents();
      ghost var destroyed := events;
      Destroy();
      var info := Create(width, height, support, graphicsFamily, presentFamily, swapchainImages);
      assert events == destroyed + [SwapchainDestroyed, SwapchainCreated];
      CreateDependents();
    }

    /** The first loop of `reload`: `destroy_pipeline` on every dependent. */
    method DestroyDependents()
      modifies this
      ensures events == old(events) + DestroyEvents(dependents)
      ensures images == old(images) && extent == old(extent) && imageFormat == old(imageFormat)
      ensures dependents == old(dependents) && shouldResize == old(shouldResize)
    {
      for i := 0 to |dependents|
        invariant dependents == old(dependents) && shouldResize == old(shouldResize)
        invariant images == old(images) && extent == old(extent) && imageFormat == old(imageFormat)
        invariant events == old(events) + DestroyEvents(dependents[..i])
      {
        assert dependents[..i + 1] == dependents[..i] + [dependents[i]];
        DestroyEventsAppend(dependents[..i], dependents[i]);
        events := events + [PipelineDestroyed(dependents[i])];
      }
      assert dependents[..|dependents|] == dependents;
    }

    /** The last loop of `reload`: `create_pipeline` on every dependent. */
    method CreateDependents()
      modifies this
      ensures events == old(events) + CreateEvents(dependents)
      ensures images == old(images) && extent == old(extent) && imageFormat == old(imageFormat)
      ensures dependents == old(dependents) && shouldResize == old(shouldResize)
    {
      for i := 0 to |dependents|
        invariant dependents == old(dependents) && shouldResize == old(shouldResize)
        invariant images == old(images) && extent == old(extent) && imageFormat == old(imageFormat)
        invariant events == old(events) + CreateEvents(dependents[..i])
      {
        assert dependents[..i + 1] == dependents[..i] + [dependents[i]];
        CreateEventsAppend(dependents[..i], dependents[i]);
        events := events + [PipelineCreated(dependents[i])];
      }
      assert dependents[..|dependents|] == dependents;
    }

    /** The destructor destroys the swapchain and releases its renderer reference. */
    method Dispose(renderer: Renderer.RendererData)
      requires renderer.refCount > 0
      modifies this, renderer
      ensures images == [] && events == old(events) + [SwapchainDestroyed]
      ensures renderer.refCount == old(renderer.refCount) - 1
      ensures renderer.teardowns == old(renderer.teardowns) + (if renderer.refCount == 0 && renderer.shouldShutdown then 1 else 0)
    {
      Destroy();
      renderer.RemoveRef();
    }
  }

  /**
   * In the events of a reload, each dependent is destroyed before the swapchain goes, and
   * created again only after the new swapchain exists.
   */
  lemma {:induction false} ReloadOrder(dependents: seq<nat>, i: nat, j: nat)
    requires i < |dependents| && j < |dependents|
    ensures var events := DestroyEvents(dependents) + [SwapchainDestroyed, SwapchainCreated] + CreateEvents(dependents);
      events[i] == PipelineDestroyed(dependents[i]) &&
      events[|dependents|] == SwapchainDestroyed &&
      events[|dependents| + 1] == SwapchainCreated &&
      events[|dependents| + 2 + j] == PipelineCreated(dependents[j])
  {
    var events := DestroyEvents(dependents) + [SwapchainDestroyed, SwapchainCreated] + CreateEvents(dependents);
    assert events[|dependents| + 2 + j] == CreateEvents(dependents)[j];
  }
}
