/**
 * The graphics pipeline of src/pipeline.cpp, as far as it is bookkeeping: the mapping of
 * vertex attributes, polygon mode, front face and depth testing to their Vulkan values,
 * the push-constant ranges and descriptor-set layouts derived from a shader's reflection
 * data, the descriptor-set index used when binding, and the order of work in `reload`.
 */
module Pipeline {
  import opened Wrappers
  import Shader
  import Renderer

  // ---------------------------------------------------------------- vertex input

  /** `vertex_attribute_type`. */
  datatype AttributeType = Float | Int | Vec2 | IVec2 | Vec3 | IVec3 | Vec4 | IVec4 | Boolean

  /** `vertex_attribute`: a type at a byte offset within the vertex. */
  datatype Attribute = Attribute(attributeType: AttributeType, offset: nat)

  /** `vertex_input_data`. */
  datatype InputLayout = InputLayout(stride: nat, attributes: seq<Attribute>)

  /** `VkFormat` values used for vertex attributes. */
  const FormatR8Uint: nat := 13
  const FormatR32Sint: nat := 99
  const FormatR32Sfloat: nat := 100
  const FormatR32G32Sint: nat := 102
  const FormatR32G32Sfloat: nat := 103
  const FormatR32G32B32Sint: nat := 105
  const FormatR32G32B32Sfloat: nat := 106
  const FormatR32G32B32A32Sint: nat := 108
  const FormatR32G32B32A32Sfloat: nat := 109

  /** The format of an attribute type: 32-bit float or signed components, one to four of them; booleans are one unsigned byte. */
  function AttributeFormat(t: AttributeType): (format: nat)
    ensures format == FormatR8Uint <==> t == Boolean
    ensures t in {Int, IVec2, IVec3, IVec4} <==>
      format in {FormatR32Sint, FormatR32G32Sint, FormatR32G32B32Sint, FormatR32G32B32A32Sint}
  {
    match t
    case Float => FormatR32Sfloat
    case Int => FormatR32Sint
    case Vec2 => FormatR32G32Sfloat
    case IVec2 => FormatR32G32Sint
    case Vec3 => FormatR32G32B32Sfloat
    case IVec3 => FormatR32G32B32Sint
    case Vec4 => FormatR32G32B32A32Sfloat
    case IVec4 => FormatR32G32B32A32Sint
    case Boolean => FormatR8Uint
  }

  /** No two attribute types share a format, so the attribute type can be read back from the description. */
  lemma AttributeFormatInjective(a: AttributeType, b: AttributeType)
    ensures AttributeFormat(a) == AttributeFormat(b) ==> a == b
  {
  }

  /** The byte size of an attribute of each type: four bytes per float or integer component, one for a boolean. */
  function AttributeSize(t: AttributeType): (size: nat)
    ensures size > 0
  {
    match t
    case Float => 4
    case Int => 4
    case Vec2 => 8
    case IVec2 => 8
    case Vec3 => 12
    case IVec3 => 12
    case Vec4 => 16
    case IVec4 => 16
    case Boolean => 1
  }

  /** `VkVertexInputAttributeDescription`. */
  datatype AttributeDescription = AttributeDescription(location: nat, binding: nat, offset: nat, format: nat)

  /** The attribute descriptions of `create_pipeline`: attribute i is at location i of binding 0. */
  method AttributeDescriptions(layout: InputLayout) returns (descriptions: seq<AttributeDescription>)
    ensures |descriptions| == |layout.attributes|
    ensures forall i :: 0 <= i < |descriptions| ==>
      descriptions[i].location == i && descriptions[i].binding == 0 &&
      descriptions[i].offset == layout.attributes[i].offset &&
      descriptions[i].format == AttributeFormat(layout.attributes[i].attributeType)
  {
    descriptions := [];
    for i := 0 to |layout.attributes|
      invariant |descriptions| == i
      invariant forall j :: 0 <= j < i ==>
        descriptions[j] == AttributeDescription(j, 0, layout.attributes[j].offset, AttributeFormat(layout.attributes[j].attributeType))
    {
      var attribute := layout.attributes[i];
      descriptions := descriptions + [AttributeDescription(i, 0, attribute.offset, AttributeFormat(attribute.attributeType))];
    }
  }

  // ---------------------------------------------------------------- rasterizer and depth state

  /** `pipeline_polygon_mode` and `pipeline_front_face`. */
  datatype PolygonMode = Fill | Wireframe
  datatype FrontFace = Clockwise | CounterClockwise

  /** `VkPolygonMode`, `VkFrontFace` and `VkCompareOp` values. */
  const PolygonModeFill: nat := 0
  const PolygonModeLine: nat := 1
  const FrontFaceCounterClockwise: nat := 0
  const FrontFaceClockwise: nat := 1
  const CompareOpNever: nat := 0
  const CompareOpLess: nat := 1

  function PolygonModeValue(mode: PolygonMode): (value: nat)
    ensures value == PolygonModeFill <==> mode == Fill
    ensures value == PolygonModeLine <==> mode == Wireframe
  {
    match mode
    case Fill => PolygonModeFill
    case Wireframe => PolygonModeLine
  }

  function FrontFaceValue(face: FrontFace): (value: nat)
    ensures value == FrontFaceClockwise <==> face == Clockwise
    ensures value == FrontFaceCounterClockwise <==> face == CounterClockwise
  {
    match face
    case Clockwise => FrontFaceClockwise
    case CounterClockwise => FrontFaceCounterClockwise
  }

  /** The depth part of `VkPipelineDepthStencilStateCreateInfo`; it starts zeroed. */
  datatype DepthState = DepthState(testEnable: bool, writeEnable: bool, compareOp: nat)

  /** With depth testing, test and write are on and compare with LESS; otherwise the state stays zeroed. */
  function DepthStateFor(enableDepthTesting: bool): (state: DepthState)
    ensures state.testEnable == enableDepthTesting && state.writeEnable == enableDepthTesting
    ensures state.compareOp == (if enableDepthTesting then CompareOpLess else CompareOpNever)
  {
    if enableDepthTesting then DepthState(true, true, CompareOpLess) else DepthState(false, false, CompareOpNever)
  }

  /** `pipeline_spec`. */
  datatype PipelineSpec = PipelineSpec(
    enableDepthTesting: bool, enableBlending: bool,
    polygonMode: PolygonMode, frontFace: FrontFace,
    inputLayout: InputLayout)

  /** The pipeline state `create_pipeline` derives from the spec and the descriptor sets. */
  datatype PipelineState = PipelineState(
    stride: nat, attributes: seq<AttributeDescription>,
    polygonMode: nat, frontFace: nat, depth: DepthState,
    setLayoutCount: nat, pushConstantRangeCount: nat)

  // ---------------------------------------------------------------- descriptor sets

  /** `VkDescriptorType` values. */
  const DescriptorCombinedImageSampler: nat := 1
  const DescriptorUniformBuffer: nat := 6
  const DescriptorStorageBuffer: nat := 7

  /** The descriptor type of a reflected resource; any kind other than the three handled ones is refused. */
  function DescriptorType(t: Shader.ResourceType): (r: Result<nat>)
    ensures r.Ok? <==> !t.OtherResource?
    ensures t == Shader.UniformBuffer ==> r == Ok(DescriptorUniformBuffer)
    ensures t == Shader.StorageBuffer ==> r == Ok(DescriptorStorageBuffer)
    ensures t == Shader.SampledImage ==> r == Ok(DescriptorCombinedImageSampler)
  {
    match t
    case UniformBuffer => Ok(DescriptorUniformBuffer)
    case StorageBuffer => Ok(DescriptorStorageBuffer)
    case SampledImage => Ok(DescriptorCombinedImageSampler)
    case OtherResource(_) => Err("invalid resource type!")
  }

  /** `VkPushConstantRange` (the stage flags are not part of this model). */
  datatype PushConstantRange = PushConstantRange(offset: nat, size: nat)

  /** `VkDescriptorSetLayoutBinding` (without stage flags). */
  datatype LayoutBinding = LayoutBinding(binding: nat, descriptorCount: nat, descriptorType: nat)

  /** A descriptor set of the pipeline: its layout's bindings and the number of sets allocated with it. */
  datatype DescriptorSet = DescriptorSet(bindings: map<nat, LayoutBinding>, setCount: nat)

  /** Every reflected resource has a kind the pipeline can bind. */
  predicate Bindable(data: Shader.ReflectionData)
  {
    forall s, b :: s in data.resources && b in data.resources[s] ==> !data.resources[s][b].resourceType.OtherResource?
  }

  /** The layout binding of one reflected resource: its array size is the descriptor count. */
  function BindingOf(data: Shader.ReflectionData, s: nat, b: nat): LayoutBinding
    requires Shader.WellFormed(data) && Bindable(data)
    requires s in data.resources && b in data.resources[s]
  {
    var resource := data.resources[s][b];
    LayoutBinding(b, data.types[resource.typeIndex].arraySize, DescriptorType(resource.resourceType).value)
  }

  /**
   * The `bindings` map of `create_descriptor_sets`: every set with at least one resource,
   * with each resource's layout binding; an unbindable resource kind is an error.
   */
  function LayoutBindings(data: Shader.ReflectionData): (r: Result<map<nat, map<nat, LayoutBinding>>>)
    requires Shader.WellFormed(data)
    ensures r.Ok? <==> Bindable(data)
    ensures r.Ok? ==> forall s :: s in r.value <==> s in data.resources && data.resources[s] != map[]
    ensures r.Ok? ==> forall s, b :: s in r.value && b in data.resources[s] ==>
      b in r.value[s] && r.value[s][b].binding == b &&
      r.value[s][b].descriptorCount == data.types[data.resources[s][b].typeIndex].arraySize &&
      Ok(r.value[s][b].descriptorType) == DescriptorType(data.resources[s][b].resourceType)
    ensures r.Ok? ==> forall s :: s in r.value ==> r.value[s].Keys == data.resources[s].Keys
  {
    if !Bindable(data) then Err("invalid resource type!")
    else Ok(map s | s in data.resources && data.resources[s] != map[] ::
              map b | b in data.resources[s] :: BindingOf(data, s, b))
  }

  /** What a pipeline renders to, as far as descriptor sets are concerned. */
  datatype RenderTarget = SwapchainTarget(imageCount: nat, currentImage: nat) | FramebufferTarget

  /** A swapchain target needs one descriptor set per swapchain image, any other target one. */
  function SetCount(target: RenderTarget): (count: nat)
    ensures target.FramebufferTarget? ==> count == 1
    ensures target.SwapchainTarget? ==> count == target.imageCount
  {
    match target
    case SwapchainTarget(imageCount, _) => imageCount
    case FramebufferTarget => 1
  }

  /** `bind` uses the swapchain's current image for a swapchain target and set 0 otherwise. */
  function BindSetIndex(target: RenderTarget): (index: nat)
    ensures target.FramebufferTarget? ==> index == 0
    ensures target.SwapchainTarget? ==> index == target.currentImage
  {
    match target
    case SwapchainTarget(_, currentImage) => currentImage
    case FramebufferTarget => 0
  }

  /** The index `bind` uses lies among the sets created for the same target whenever the swapchain's current image is one of its images. */
  lemma BindIndexWithinSets(target: RenderTarget)
    requires target.SwapchainTarget? ==> target.currentImage < target.imageCount
    ensures BindSetIndex(target) < SetCount(target)
  {
  }

  /** The descriptor sets allocated for a bindings map, each with `count` sets. */
  function AllocatedSets(bindings: map<nat, map<nat, LayoutBinding>>, count: nat): (sets: map<nat, DescriptorSet>)
    ensures sets.Keys == bindings.Keys
    ensures forall s :: s in sets ==> sets[s].bindings == bindings[s] && sets[s].setCount == count
  {
    map s | s in bindings :: DescriptorSet(bindings[s], count)
  }

  /** What `destroy_pipeline`, `destroy_descriptor_sets`, `create_*` and `rebind_objects` did, in order. */
  datatype Event = PipelineCreated | PipelineDestroyed | DescriptorSetsCreated | DescriptorSetsDestroyed | ObjectsRebound

  /**
   * The descriptor sets after `destroy_descriptor_sets` then `create_descriptor_sets` as
   * written: the sets are freed but their entries stay in the map, so sets the shader no
   * longer declares survive, and no resources at all leaves the old map in place.
   */
  function ReloadedSetsAsWritten(before: map<nat, DescriptorSet>, data: Shader.ReflectionData, target: RenderTarget): map<nat, DescriptorSet>
    requires Shader.WellFormed(data) && Bindable(data)
  {
    if data.resources == map[] then before else before + AllocatedSets(LayoutBindings(data).value, SetCount(target))
  }

  /** A shader that drops set 1 on reload: set 1's freed descriptor set is still in the map. */
  lemma StaleSetSurvivesReload()
    ensures var before := map[0 := DescriptorSet(map[], 1), 1 := DescriptorSet(map[], 1)];
            var data := Shader.ReflectionData([Shader.ShaderType("block", 16, 1, 0, map[])],
                                              map[0 := map[0 := Shader.ShaderResource("block", Shader.UniformBuffer, 0)]], []);
            Shader.WellFormed(data) && Bindable(data) &&
            1 !in data.resources && 1 in ReloadedSetsAsWritten(before, data, FramebufferTarget)
  {
    var data := Shader.ReflectionData([Shader.ShaderType("block", 16, 1, 0, map[])],
                                      map[0 := map[0 := Shader.ShaderResource("block", Shader.UniformBuffer, 0)]], []);
    assert Shader.WellFormed(data);
  }

  /** `texture_binding_desc`: where a texture is bound. */
  datatype TextureSlot = TextureSlot(setIndex: nat, binding: nat, slot: nat)

  /**
   * A `pipeline`: its spec, the derived pipeline state, push-constant ranges and
   * descriptor sets, and the uniform buffers and textures bound to it, by id.
   */
  class Pipeline {
    const spec: PipelineSpec
    /** `m_shader`. */
    const shader: Shader.ShaderObject
    var state: Option<PipelineState>
    var pushConstantRanges: seq<PushConstantRange>
    var descriptorSets: map<nat, DescriptorSet>
    var events: seq<Event>
    /** `m_bound_buffers`: set, then binding, to the id of the uniform buffer bound there. */
    var boundBuffers: map<nat, map<nat, nat>>
    /** `m_bound_textures`: the id of the texture bound at each slot. */
    var boundTextures: map<TextureSlot, nat>
    /** `m_material`: the id of the material that created the pipeline, if it still exists. */
    var material: Option<nat>

    /**
     * The constructor: the initial fields and a renderer reference, and the pipeline joins
     * its shader's dependents. (`create_descriptor_sets` and `create_pipeline`, which it
     * calls in between, are the methods of those names.)
     */
    constructor (spec: PipelineSpec, shader: Shader.ShaderObject, renderer: Renderer.RendererData)
      modifies shader`dependents, renderer
      ensures this.spec == spec && this.shader == shader && state == None
      ensures pushConstantRanges == [] && descriptorSets == map[] && events == []
      ensures boundBuffers == map[] && boundTextures == map[] && material == None
      ensures shader.dependents == old(shader.dependents) + {this}
      ensures renderer.refCount == old(renderer.refCount) + 1
      ensures renderer.shouldShutdown == old(renderer.shouldShutdown) && renderer.teardowns == old(renderer.teardowns)
    {
      this.spec := spec;
      this.shader := shader;
      state := None;
      pushConstantRanges := [];
      descriptorSets := map[];
      events := [];
      boundBuffers := map[];
      boundTextures := map[];
      material := None;
      new;
      renderer.AddRef();
      shader.dependents := shader.dependents + {this};
    }

    /**
     * The destructor: the pipeline leaves its shader's dependents, the pipeline and then the
     * descriptor sets are destroyed, and the renderer reference is returned.
     */
    method Dispose(renderer: Renderer.RendererData)
      requires renderer.refCount > 0
      modifies this, shader`dependents, renderer
      ensures shader.dependents == old(shader.dependents) - {this}
      ensures events == old(events) + [PipelineDestroyed, DescriptorSetsDestroyed]
      ensures descriptorSets == map[] && state == old(state)
      ensures renderer.refCount == old(renderer.refCount) - 1
      ensures renderer.teardowns == old(renderer.teardowns) + (if renderer.refCount == 0 && renderer.shouldShutdown then 1 else 0)
    {
      shader.dependents := shader.dependents - {this};
      DestroyPipeline();
      DestroyDescriptorSets();
      renderer.RemoveRef();
    }

    /**
     * `create_descriptor_sets`: one range per push-constant block, at offset 0 and of the
     * block's type size; then, unless the shader has no resources, one descriptor set per
     * set number, each allocated `SetCount(target)` times.
     */
    method CreateDescriptorSets(data: Shader.ReflectionData, target: RenderTarget) returns (r: Result<()>)
      requires Shader.WellFormed(data)
      modifies this
      ensures |pushConstantRanges| == |data.pushConstants|
      ensures forall i :: 0 <= i < |pushConstantRanges| ==>
        pushConstantRanges[i] == PushConstantRange(0, data.types[data.pushConstants[i].typeIndex].size)
      ensures data.resources == map[] ==> r.Ok? && descriptorSets == old(descriptorSets)
      ensures data.resources != map[] ==> (r.Ok? <==> Bindable(data))
      ensures data.resources != map[] && r.Ok? ==>
        descriptorSets == old(descriptorSets) + AllocatedSets(LayoutBindings(data).value, SetCount(target))
      ensures !r.Ok? ==> descriptorSets == old(descriptorSets)
      ensures state == old(state) && events == old(events) + (if r.Ok? then [DescriptorSetsCreated] else [])
    {
      CreatePushConstantRanges(data);
      if data.resources == map[] {
        events := events + [DescriptorSetsCreated];
        return Ok(());
      }
      var bindings := LayoutBindings(data);
      if bindings.Err? {
        return Err(bindings.message);
      }
      AllocateSets(bindings.value, SetCount(target));
      events := events + [DescriptorSetsCreated];
      r := Ok(());
    }

    /** The push-constant loop of `create_descriptor_sets`. */
    method CreatePushConstantRanges(data: Shader.ReflectionData)
      requires Shader.WellFormed(data)
      modifies this
      ensures |pushConstantRanges| == |data.pushConstants|
      ensures forall i :: 0 <= i < |pushConstantRanges| ==>
        pushConstantRanges[i] == PushConstantRange(0, data.types[data.pushConstants[i].typeIndex].size)
      ensures state == old(state) && events == old(events) && descriptorSets == old(descriptorSets)
    {
      pushConstantRanges := [];
      for i := 0 to |data.pushConstants|
        invariant |pushConstantRanges| == i
        invariant forall j :: 0 <= j < i ==>
          pushConstantRanges[j] == PushConstantRange(0, data.types[data.pushConstants[j].typeIndex].size)
        invariant state == old(state) && events == old(events) && descriptorSets == old(descriptorSets)
      {
        var size := data.types[data.pushConstants[i].typeIndex].size;
        pushConstantRanges := pushConstantRanges + [PushConstantRange(0, size)];
      }
    }

    /** The allocation loop of `create_descriptor_sets`: each set number gets its layout and `count` sets. */
    method AllocateSets(bindings: map<nat, map<nat, LayoutBinding>>, count: nat)
      modifies this
      ensures descriptorSets == old(descriptorSets) + AllocatedSets(bindings, count)
      ensures state == old(state) && events == old(events) && pushConstantRanges == old(pushConstantRanges)
    {
      var remaining := bindings.Keys;
      while remaining != {}
        invariant remaining <= bindings.Keys
        invariant descriptorSets == old(descriptorSets) + map s | s in bindings.Keys - remaining :: DescriptorSet(bindings[s], count)
        invariant state == old(state) && events == old(events) && pushConstantRanges == old(pushConstantRanges)
        decreases remaining
      {
        var s :| s in remaining;
        descriptorSets := descriptorSets[s := DescriptorSet(bindings[s], count)];
        remaining := remaining - {s};
      }
    }

    /**
     * `destroy_descriptor_sets`, corrected: the freed sets are also taken out of the map, so
     * a later `create_descriptor_sets` leaves exactly the sets the shader declares.
     */
    method DestroyDescriptorSets()
      modifies this
      ensures descriptorSets == map[]
      ensures events == old(events) + [DescriptorSetsDestroyed]
      ensures state == old(state) && pushConstantRanges == old(pushConstantRanges)
    {
      descriptorSets := map[];
      events := events + [DescriptorSetsDestroyed];
    }

    /** `create_pipeline`: the state derived from the spec, the descriptor-set layouts and the push-constant ranges. */
    method CreatePipeline()
      modifies this
      ensures state.Some?
      ensures state.value.stride == spec.inputLayout.stride
      ensures |state.value.attributes| == |spec.inputLayout.attributes|
      ensures forall i :: 0 <= i < |state.value.attributes| ==>
        state.value.attributes[i] == AttributeDescription(i, 0, spec.inputLayout.attributes[i].offset, AttributeFormat(spec.inputLayout.attributes[i].attributeType))
      ensures state.value.polygonMode == PolygonModeValue(spec.polygonMode)
      ensures state.value.frontFace == FrontFaceValue(spec.frontFace)
      ensures state.value.depth == DepthStateFor(spec.enableDepthTesting)
      ensures state.value.setLayoutCount == |descriptorSets| && state.value.pushConstantRangeCount == |pushConstantRanges|
      ensures descriptorSets == old(descriptorSets) && pushConstantRanges == old(pushConstantRanges)
      ensures events == old(events) + [PipelineCreated]
    {
      var attributes := AttributeDescriptions(spec.inputLayout);
      state := Some(PipelineState(spec.inputLayout.stride, attributes, PolygonModeValue(spec.polygonMode),
                                  FrontFaceValue(spec.frontFace), DepthStateFor(spec.enableDepthTesting),
                                  |descriptorSets|, |pushConstantRanges|));
      events := events + [PipelineCreated];
    }

    /** `destroy_pipeline`. */
    method DestroyPipeline()
      modifies this
      ensures events == old(events) + [PipelineDestroyed]
      ensures state == old(state) && descriptorSets == old(descriptorSets) && pushConstantRanges == old(pushConstantRanges)
    {
      events := events + [PipelineDestroyed];
    }

    /**
     * `reload`: the pipeline is destroyed and recreated; the descriptor sets are rebuilt and
     * the bound objects rebound in between only when asked for. A failure to rebuild the
     * sets leaves the pipeline destroyed.
     */
    method Reload(rebuildSets: bool, data: Shader.ReflectionData, target: RenderTarget) returns (r: Result<()>)
      requires Shader.WellFormed(data)
      modifies this
      ensures !rebuildSets ==> r.Ok? && events == old(events) + [PipelineDestroyed, PipelineCreated]
      ensures !rebuildSets ==> descriptorSets == old(descriptorSets)
      ensures rebuildSets ==> (r.Ok? <==> data.resources == map[] || Bindable(data))
      ensures rebuildSets && r.Ok? ==>
        events == old(events) + [PipelineDestroyed, DescriptorSetsDestroyed, DescriptorSetsCreated, ObjectsRebound, PipelineCreated]
      ensures rebuildSets && r.Ok? && data.resources == map[] ==> descriptorSets == map[]
      ensures rebuildSets && r.Ok? && data.resources != map[] ==>
        descriptorSets == AllocatedSets(LayoutBindings(data).value, SetCount(target))
      ensures rebuildSets && !r.Ok? ==> events == old(events) + [PipelineDestroyed, DescriptorSetsDestroyed]
      ensures r.Ok? ==> state.Some? && state.value.setLayoutCount == |descriptorSets|
    {
      DestroyPipeline();
      if rebuildSets {
        r := RebuildSets(data, target);
        if r.Err? {
          return;
        }
      }
      CreatePipeline();
      r := Ok(());
    }

    /** The middle of `reload` when asked to rebuild: destroy and recreate the sets, then rebind the objects. */
    method RebuildSets(data: Shader.ReflectionData, target: RenderTarget) returns (r: Result<()>)
      requires Shader.WellFormed(data)
      modifies this
      ensures r.Ok? <==> data.resources == map[] || Bindable(data)
      ensures r.Ok? ==> events == old(events) + [DescriptorSetsDestroyed, DescriptorSetsCreated, ObjectsRebound]
      ensures !r.Ok? ==> events == old(events) + [DescriptorSetsDestroyed]
      ensures r.Ok? && data.resources == map[] ==> descriptorSets == map[]
      ensures r.Ok? && data.resources != map[] ==>
        descriptorSets == AllocatedSets(LayoutBindings(data).value, SetCount(target))
      ensures state == old(state)
    {
      DestroyDescriptorSets();
      r := CreateDescriptorSets(data, target);
      if r.Err? {
        return;
      }
      if data.resources != map[] {
        var sets := AllocatedSets(LayoutBindings(data).value, SetCount(target));
        assert map[] + sets == sets;
      }
      events := events + [ObjectsRebound];
    }

    /** `bind`: the index of the descriptor set bound from every set number. */
    method Bind(target: RenderTarget) returns (setIndex: nat)
      ensures setIndex == BindSetIndex(target)
    {
      setIndex := 0;
      if target.SwapchainTarget? {
        setIndex := target.currentImage;
      }
    }
  }
}
