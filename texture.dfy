/**
 * The textures of src/texture.cpp: a sampled image that binds itself into pipelines'
 * descriptor sets. A texture remembers the pipelines it was bound to, and each pipeline
 * remembers which texture sits at every (set, binding, slot); when the texture goes away
 * it removes itself from all of those tables. Texture identity is its `id`.
 */
module Texture {
  import opened Wrappers
  import opened Vulkan
  import Strings
  import Shader
  import Image
  import Pipeline
  import Renderer
  import ImGuiController

  /** "binding S.B", the way errors name a resource. */
  function BindingName(setIndex: nat, binding: nat): (name: string)
    ensures |name| > 8 && name[..8] == "binding "
  {
    "binding " + Strings.Decimal(setIndex) + "." + Strings.Decimal(binding)
  }

  /**
   * The checks of `bind`, in order: the resource at (set, binding) must be a sampled image,
   * the slot must be inside its array, and the pipeline must have the set. A (set, binding)
   * the reflection lacks is reported like a resource of another kind.
   */
  function BindCheck(data: Shader.ReflectionData, descriptorSets: set<nat>, setIndex: nat, binding: nat, slot: nat): (r: Result<()>)
    requires Shader.WellFormed(data)
    ensures r.Ok? <==>
      setIndex in data.resources && binding in data.resources[setIndex] &&
      data.resources[setIndex][binding].resourceType == Shader.SampledImage &&
      slot < data.types[data.resources[setIndex][binding].typeIndex].arraySize &&
      setIndex in descriptorSets
    ensures !(setIndex in data.resources && binding in data.resources[setIndex]) ==>
      r == Err(BindingName(setIndex, binding) + " is not a sampled image!")
  {
    if !(setIndex in data.resources && binding in data.resources[setIndex]) ||
       data.resources[setIndex][binding].resourceType != Shader.SampledImage then
      Err(BindingName(setIndex, binding) + " is not a sampled image!")
    else
      var arraySize := data.types[data.resources[setIndex][binding].typeIndex].arraySize;
      if slot >= arraySize then
        Err("index " + Strings.Decimal(slot) + " is out of the array range (" + Strings.Decimal(arraySize) +
            ") of " + BindingName(setIndex, binding) + "!")
      else if setIndex !in descriptorSets then
        Err("set " + Strings.Decimal(setIndex) + " does not exist on the given pipeline!")
      else Ok(())
  }

  const ResourceNotFound: string := "the specified resource was not found!"

  /** A pipeline's texture table without the entries that point at texture `id`. */
  function Unbound(table: map<Pipeline.TextureSlot, nat>, id: nat): (r: map<Pipeline.TextureSlot, nat>)
    ensures forall k :: k in r ==> r[k] != id
    ensures forall k :: k in table && table[k] != id ==> k in r && r[k] == table[k]
    ensures forall k :: k in r ==> k in table
  {
    map k | k in table && table[k] != id :: table[k]
  }

  /**
   * Binding a texture at a slot and then destroying it leaves the pipeline's table as it
   * was without that texture, minus the slot (whatever sat there before was replaced).
   */
  lemma UnboundAfterBind(table: map<Pipeline.TextureSlot, nat>, slot: Pipeline.TextureSlot, id: nat)
    ensures Unbound(table[slot := id], id) == Unbound(table, id) - {slot}
  {
    var left := Unbound(table[slot := id], id);
    var right := Unbound(table, id) - {slot};
    assert forall k :: k in left <==> k in right;
    assert forall k :: k in left ==> left[k] == right[k];
  }

  /** Removing a texture from a table that does not mention it changes nothing. */
  lemma UnboundUnmentioned(table: map<Pipeline.TextureSlot, nat>, id: nat)
    requires forall k :: k in table ==> table[k] != id
    ensures Unbound(table, id) == table
  {
    assert forall k :: k in table <==> k in Unbound(table, id);
  }

  /** `texture`: its identity, its image, the pipelines it was bound to and its ImGui handle (0 for none). */
  class Texture {
    const id: nat
    const image: Image.Image2D
    var boundPipelines: set<Pipeline.Pipeline>
    /** `m_imgui_id`: 0 until `get_imgui_id` first runs. */
    var imguiId: nat

    constructor (id: nat, image: Image.Image2D)
      ensures this.id == id && this.image == image && boundPipelines == {} && imguiId == 0
    {
      this.id := id;
      this.image := image;
      boundPipelines := {};
      imguiId := 0;
    }

    /**
     * `bind` at (set, binding, slot) on a pipeline whose shader has the reflection `data`:
     * after the checks, one descriptor write per allocated copy of the set, the pipeline
     * joins the bound set and the slot's entry names this texture.
     */
    method Bind(pipeline: Pipeline.Pipeline, data: Shader.ReflectionData, setIndex: nat, binding: nat, slot: nat) returns (r: Result<nat>)
      requires Shader.WellFormed(data)
      modifies this, pipeline
      ensures r.Ok? <==> BindCheck(data, pipeline.descriptorSets.Keys, setIndex, binding, slot).Ok?
      ensures r.Err? ==> r.message == BindCheck(data, pipeline.descriptorSets.Keys, setIndex, binding, slot).message
      ensures r.Ok? ==> r.value == pipeline.descriptorSets[setIndex].setCount
      ensures r.Ok? ==> boundPipelines == old(boundPipelines) + {pipeline}
      ensures r.Ok? ==> pipeline.boundTextures == old(pipeline.boundTextures)[Pipeline.TextureSlot(setIndex, binding, slot) := id]
      ensures r.Err? ==> boundPipelines == old(boundPipelines) && pipeline.boundTextures == old(pipeline.boundTextures)
      ensures imguiId == old(imguiId)
      ensures pipeline.descriptorSets == old(pipeline.descriptorSets) && pipeline.boundBuffers == old(pipeline.boundBuffers)
      ensures pipeline.state == old(pipeline.state) && pipeline.events == old(pipeline.events)
      ensures pipeline.pushConstantRanges == old(pipeline.pushConstantRanges) && pipeline.material == old(pipeline.material)
    {
      if !(setIndex in data.resources && binding in data.resources[setIndex]) ||
         data.resources[setIndex][binding].resourceType != Shader.SampledImage {
        return Err(BindingName(setIndex, binding) + " is not a sampled image!");
      }
      var arraySize := data.types[data.resources[setIndex][binding].typeIndex].arraySize;
      if slot >= arraySize {
        return Err("index " + Strings.Decimal(slot) + " is out of the array range (" + Strings.Decimal(arraySize) +
                   ") of " + BindingName(setIndex, binding) + "!");
      }
      if setIndex !in pipeline.descriptorSets {
        return Err("set " + Strings.Decimal(setIndex) + " does not exist on the given pipeline!");
      }
      var writes := pipeline.descriptorSets[setIndex].setCount;
      if pipeline !in boundPipelines {
        boundPipelines := boundPipelines + {pipeline};
      }
      var key := Pipeline.TextureSlot(setIndex, binding, slot);
      if key !in pipeline.boundTextures || pipeline.boundTextures[key] != id {
        pipeline.boundTextures := pipeline.boundTextures[key := id];
      } else {
        assert pipeline.boundTextures[key := id] == pipeline.boundTextures;
      }
      r := Ok(writes);
    }

    /** `bind` by resource name: the first resource of that name in (set, binding) order, or an error. */
    method BindByName(pipeline: Pipeline.Pipeline, data: Shader.ReflectionData, name: string, slot: nat) returns (r: Result<nat>)
      requires Shader.WellFormed(data)
      modifies this, pipeline
      ensures (forall s, b :: !Shader.ResourceAt(data.resources, s, b, name)) ==>
        r == Err(ResourceNotFound) && boundPipelines == old(boundPipelines) &&
        pipeline.boundTextures == old(pipeline.boundTextures)
      ensures r.Ok? ==> exists s, b :: (Shader.ResourceAt(data.resources, s, b, name) &&
        (forall s', b' :: Shader.ResourceAt(data.resources, s', b', name) ==> s < s' || (s == s' && b <= b')) &&
        pipeline.boundTextures == old(pipeline.boundTextures)[Pipeline.TextureSlot(s, b, slot) := id])
      ensures (forall s, b :: !Shader.FirstResourceAt(data.resources, s, b, name)) ==> r == Err(ResourceNotFound)
      ensures forall s, b :: Shader.FirstResourceAt(data.resources, s, b, name) ==>
        (r.Ok? <==> BindCheck(data, pipeline.descriptorSets.Keys, s, b, slot).Ok?) &&
        (r.Err? ==> r.message == BindCheck(data, pipeline.descriptorSets.Keys, s, b, slot).message) &&
        (r.Ok? ==> pipeline.boundTextures == old(pipeline.boundTextures)[Pipeline.TextureSlot(s, b, slot) := id])
      ensures r.Ok? ==> boundPipelines == old(boundPipelines) + {pipeline}
      ensures r.Err? ==> boundPipelines == old(boundPipelines) && pipeline.boundTextures == old(pipeline.boundTextures)
      ensures imguiId == old(imguiId) && pipeline.material == old(pipeline.material)
      ensures pipeline.descriptorSets == old(pipeline.descriptorSets) && pipeline.boundBuffers == old(pipeline.boundBuffers)
    {
      var found, setIndex, binding := Shader.FindResource(data.resources, name, 0, 0);
      if !found {
        return Err(ResourceNotFound);
      }
      assert Shader.FirstResourceAt(data.resources, setIndex, binding, name);
      r := Bind(pipeline, data, setIndex, binding, slot);
    }

    /**
     * `get_imgui_id`: the first call registers an ImGui dependent and stores the handle the
     * backend gives (`backendId`); later calls return the stored handle.
     */
    method GetImGuiId(imgui: ImGuiController.ImGuiData, backendId: nat) returns (handle: nat)
      modifies this, imgui
      ensures old(imguiId) != 0 ==> handle == old(imguiId) && imgui.dependentCount == old(imgui.dependentCount)
      ensures old(imguiId) == 0 ==> handle == backendId && imgui.dependentCount == old(imgui.dependentCount) + 1
      ensures imguiId == handle
      ensures boundPipelines == old(boundPipelines)
      ensures imgui.shouldShutdown == old(imgui.shouldShutdown) && imgui.teardowns == old(imgui.teardowns)
      ensures old(imgui.Valid()) && !imgui.shouldShutdown ==> imgui.Valid()
    {
      if imguiId == 0 {
        imgui.AddDependent();
        imguiId := backendId;
      }
      handle := imguiId;
    }

    /**
     * The destructor: every bound pipeline loses the entries that point at this texture;
     * an ImGui handle gives its dependent back, and so does the renderer reference.
     */
    method Dispose(renderer: Renderer.RendererData, imgui: ImGuiController.ImGuiData)
      requires imguiId != 0 ==> imgui.dependentCount > 0 && (imgui.dependentCount == 1 && imgui.shouldShutdown ==> renderer.refCount > 1)
      requires renderer.refCount > 0
      modifies boundPipelines, imgui, renderer
      ensures forall p :: p in boundPipelines ==> p.boundTextures == Unbound(old(p.boundTextures), id)
      ensures forall p :: p in boundPipelines ==>
        p.descriptorSets == old(p.descriptorSets) && p.boundBuffers == old(p.boundBuffers) && p.material == old(p.material)
      ensures imgui.dependentCount == old(imgui.dependentCount) - (if imguiId != 0 then 1 else 0)
      ensures renderer.refCount ==
        old(renderer.refCount) - 1 - (if imguiId != 0 && old(imgui.dependentCount) == 1 && imgui.shouldShutdown then 1 else 0)
    {
      var remaining := boundPipelines;
      while remaining != {}
        invariant remaining <= boundPipelines
        invariant forall p :: p in boundPipelines - remaining ==> p.boundTextures == Unbound(old(p.boundTextures), id)
        invariant forall p :: p in remaining ==> p.boundTextures == old(p.boundTextures)
        invariant forall p :: p in boundPipelines ==>
          p.descriptorSets == old(p.descriptorSets) && p.boundBuffers == old(p.boundBuffers) && p.material == old(p.material)
        invariant imgui.dependentCount == old(imgui.dependentCount) && renderer.refCount == old(renderer.refCount)
        invariant imgui.shouldShutdown == old(imgui.shouldShutdown)
        decreases remaining
      {
        var p :| p in remaining;
        var bindings: set<Pipeline.TextureSlot> := set k | k in p.boundTextures && p.boundTextures[k] == id;
        p.boundTextures := p.boundTextures - bindings;
        assert p.boundTextures == Unbound(old(p.boundTextures), id);
        remaining := remaining - {p};
      }
      if imguiId != 0 {
        imgui.RemoveDependent(renderer);
      }
      renderer.RemoveRef();
    }
  }

  /**
   * The `texture` constructor: a renderer reference, then, when asked, a transition to the
   * shader-read-only layout unless the image is already there; `samplerOk` is whether the
   * sampler could be created.
   */
  method NewTexture(renderer: Renderer.RendererData, id: nat, image: Image.Image2D, transitionLayout: bool, samplerOk: bool)
    returns (r: Result<Texture>)
    modifies renderer, image
    ensures renderer.refCount == old(renderer.refCount) + 1
    ensures !transitionLayout || old(image.layout) == LayoutShaderReadOnly ==> image.layout == old(image.layout)
    ensures transitionLayout && old(image.layout) != LayoutShaderReadOnly && old(image.layout) in Image.SupportedLayouts ==>
      image.layout == LayoutShaderReadOnly
    ensures r.Ok? <==> samplerOk && (transitionLayout && old(image.layout) != LayoutShaderReadOnly ==> old(image.layout) in Image.SupportedLayouts)
    ensures r.Ok? ==> fresh(r.value) && r.value.id == id && r.value.image == image
    ensures r.Ok? ==> r.value.boundPipelines == {} && r.value.imguiId == 0
    ensures r.Err? && (!transitionLayout || old(image.layout) == LayoutShaderReadOnly) ==> r.message == "could not create sampler!"
  {
    renderer.AddRef();
    if transitionLayout && image.layout != LayoutShaderReadOnly {
      var transition := image.Transition(LayoutShaderReadOnly);
      if transition.Err? {
        return Err(transition.message);
      }
    }
    if !samplerOk {
      return Err("could not create sampler!");
    }
    var texture := new Texture(id, image);
    r := Ok(texture);
  }
}
