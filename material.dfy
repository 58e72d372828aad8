/**
 * The materials of src/material.cpp: a shader together with its "material_data" uniform
 * buffer, its light buffer and a table of textures, one list of slots per sampled-image
 * resource. Pipelines created from a material get all of these bound and point back at
 * the material until it goes away.
 */
module Material {
  import opened Wrappers
  import Shader
  import Swapchain
  import Buffers
  import Light
  import Pipeline
  import Texture

  /** The global `material_data`: the swapchain new materials draw to, null before `init`. */
  class MaterialData {
    var swapchain: Swapchain.Swapchain?

    constructor ()
      ensures swapchain == null
    {
      swapchain := null;
    }

    /** `init`: the swapchain is replaced; `warned` says a previous one was still set. */
    method Init(newSwapchain: Swapchain.Swapchain?) returns (warned: bool)
      modifies this
      ensures warned <==> old(swapchain) != null
      ensures swapchain == newSwapchain
    {
      warned := swapchain != null;
      swapchain := newSwapchain;
    }

    /** `shutdown`: the swapchain is dropped; `warned` says there was none. */
    method Shutdown() returns (warned: bool)
      modifies this
      ensures warned <==> old(swapchain) == null
      ensures swapchain == null
    {
      warned := swapchain == null;
      swapchain := null;
    }
  }

  /** The resource at (s, b) is a sampled image named `name`. */
  predicate SampledAt(data: Shader.ReflectionData, s: nat, b: nat, name: string)
  {
    s in data.resources && b in data.resources[s] &&
    data.resources[s][b].resourceType == Shader.SampledImage && data.resources[s][b].name == name
  }

  /** The slots of texture resource `name`: all `white`, as many as the array size of a sampled image of that name. */
  ghost predicate WhiteSlots(data: Shader.ReflectionData, name: string, slots: seq<Texture.Texture>, white: Texture.Texture)
    requires Shader.WellFormed(data)
  {
    (forall i :: 0 <= i < |slots| ==> slots[i] == white) &&
    exists s, b :: SampledAt(data, s, b, name) && |slots| == data.types[data.resources[s][b].typeIndex].arraySize
  }

  /**
   * The texture table a new material starts with: every sampled-image resource, set by
   * set and binding by binding, gets its array size of slots, each holding the white texture.
   */
  method InitialTextures(data: Shader.ReflectionData, white: Texture.Texture) returns (textures: map<string, seq<Texture.Texture>>)
    requires Shader.WellFormed(data)
    ensures forall name :: name in textures <==> exists s, b :: SampledAt(data, s, b, name)
    ensures forall name :: name in textures ==> WhiteSlots(data, name, textures[name], white)
  {
    textures := map[];
    var sets := data.resources.Keys;
    while sets != {}
      invariant sets <= data.resources.Keys
      invariant forall name :: name in textures ==> WhiteSlots(data, name, textures[name], white)
      invariant forall name :: name in textures ==> exists s, b :: SampledAt(data, s, b, name)
      invariant forall s, b, name :: s !in sets && SampledAt(data, s, b, name) ==> name in textures
      decreases sets
    {
      var s :| s in sets;
      var bindings := data.resources[s].Keys;
      while bindings != {}
        invariant bindings <= data.resources[s].Keys
        invariant forall name :: name in textures ==> WhiteSlots(data, name, textures[name], white)
        invariant forall name :: name in textures ==> exists s, b :: SampledAt(data, s, b, name)
        invariant forall s', b, name :: s' !in sets && SampledAt(data, s', b, name) ==> name in textures
        invariant forall b, name :: b !in bindings && SampledAt(data, s, b, name) ==> name in textures
        decreases bindings
      {
        var b :| b in bindings;
        var resource := data.resources[s][b];
        if resource.resourceType == Shader.SampledImage {
          var arraySize := data.types[resource.typeIndex].arraySize;
          var slots := seq(arraySize, _ => white);
          assert SampledAt(data, s, b, resource.name);
          assert WhiteSlots(data, resource.name, slots, white);
          textures := textures[resource.name := slots];
        }
        bindings := bindings - {b};
      }
      sets := sets - {s};
    }
  }

  /**
   * The shader's name in the library, found by comparing every entry with the shader;
   * none when the shader was not added to the library.
   */
  method LibraryName(library: Shader.ShaderLibrary, shader: Shader.ShaderObject) returns (name: Option<string>)
    ensures name.Some? ==> name.value in library.shaders && library.shaders[name.value] == shader
    ensures name.None? <==> forall n :: n in library.shaders ==> library.shaders[n] != shader
  {
    name := None;
    var names := library.shaders.Keys;
    while names != {}
      invariant names <= library.shaders.Keys
      invariant name.Some? ==> name.value in library.shaders && library.shaders[name.value] == shader
      invariant name.None? ==> forall n :: n in library.shaders && n !in names ==> library.shaders[n] != shader
      decreases names
    {
      var n :| n in names;
      if library.shaders[n] == shader {
        name := Some(n);
      }
      names := names - {n};
    }
  }

  /** `material`: its shader, buffers, texture table and the pipelines created from it. */
  class Material {
    const id: nat
    const swapchain: Swapchain.Swapchain
    const shader: Shader.ShaderObject
    var name: string
    /** Where "material_data" sits. */
    const setIndex: nat
    const binding: nat
    const buffer: Buffers.UniformBuffer
    const lightBuffer: Buffers.UniformBuffer
    /** `m_textures`: the slots of every sampled-image resource, by resource name. */
    var textures: map<string, seq<Texture.Texture>>
    /** `m_created_pipelines`. */
    var createdPipelines: set<Pipeline.Pipeline>

    constructor (id: nat, swapchain: Swapchain.Swapchain, shader: Shader.ShaderObject, setIndex: nat, binding: nat,
                 buffer: Buffers.UniformBuffer, lightBuffer: Buffers.UniformBuffer, textures: map<string, seq<Texture.Texture>>)
      ensures this.id == id && this.swapchain == swapchain && this.shader == shader && name == DefaultName
      ensures this.setIndex == setIndex && this.binding == binding
      ensures this.buffer == buffer && this.lightBuffer == lightBuffer
      ensures this.textures == textures && createdPipelines == {}
    {
      this.id := id;
      this.swapchain := swapchain;
      this.shader := shader;
      name := DefaultName;
      this.setIndex := setIndex;
      this.binding := binding;
      this.buffer := buffer;
      this.lightBuffer := lightBuffer;
      this.textures := textures;
      createdPipelines := {};
    }

    /** `get_texture`: an unknown resource name is an error. */
    function GetTexture(resource: string, slot: nat): (r: Result<Texture.Texture>)
      requires resource in textures ==> slot < |textures[resource]|
      reads this
      ensures r.Ok? <==> resource in textures
      ensures r.Err? ==> r.message == UnknownTexture
    {
      if resource !in textures then Err(UnknownTexture) else Ok(textures[resource][slot])
    }

    /**
     * `set_texture`: an unknown resource name is an error; otherwise the slot holds the
     * texture, which is then bound by name at that slot on every pipeline created so far.
     */
    method SetTexture(resource: string, tex: Texture.Texture, slot: nat) returns (r: Result<()>)
      requires resource in textures ==> slot < |textures[resource]|
      requires Shader.WellFormed(shader.reflection)
      modifies this, tex, createdPipelines
      ensures resource !in old(textures) ==> r == Err(UnknownTexture) && textures == old(textures)
      ensures resource in old(textures) ==> textures == old(textures)[resource := old(textures)[resource][slot := tex]]
      ensures resource in old(textures) ==> GetTexture(resource, slot) == Ok(tex)
      ensures forall other, i :: other in old(textures) && 0 <= i < |old(textures)[other]| && (other, i) != (resource, slot) ==>
        GetTexture(other, i) == Ok(old(textures)[other][i])
      ensures r.Ok? <==> resource in old(textures) && BindsEverywhere(shader.reflection, createdPipelines, resource, slot)
      ensures r.Ok? ==> tex.boundPipelines == old(tex.boundPipelines) + createdPipelines
      ensures r.Ok? ==> forall p, s, b :: p in old(createdPipelines) && Shader.FirstResourceAt(shader.reflection.resources, s, b, resource) ==>
        p.boundTextures == old(p.boundTextures)[Pipeline.TextureSlot(s, b, slot) := tex.id]
      ensures r.Err? && resource in old(textures) ==> BindFailure(shader.reflection, createdPipelines, resource, slot, r.message)
      ensures forall p :: p in old(createdPipelines) ==> p.descriptorSets == old(p.descriptorSets) && p.material == old(p.material)
      ensures createdPipelines == old(createdPipelines) && name == old(name)
    {
      if resource !in textures {
        return Err(UnknownTexture);
      }
      textures := textures[resource := textures[resource][slot := tex]];
      r := BindOnAll(tex, shader.reflection, createdPipelines, resource, slot);
    }

    /** Every texture object of the table. */
    function TextureObjects(): set<Texture.Texture>
      reads this
    {
      set n, i | n in textures && 0 <= i < |textures[n]| :: textures[n][i]
    }

    /**
     * Every slot of the texture table, bound by resource name on the pipeline; the first
     * slot that does not bind ends the loop with its error.
     */
    method BindTextures(pipeline: Pipeline.Pipeline) returns (r: Result<()>)
      requires Shader.WellFormed(shader.reflection)
      modifies pipeline, TextureObjects()
      ensures textures == old(textures)
      ensures r.Ok? <==> TableBinds(shader.reflection, pipeline.descriptorSets.Keys, textures)
      ensures r.Err? ==> SlotFailure(shader.reflection, pipeline.descriptorSets.Keys, textures, r.message)
      ensures r.Ok? ==> forall n, i :: n in textures && 0 <= i < |textures[n]| ==> pipeline in textures[n][i].boundPipelines
      ensures pipeline.material == old(pipeline.material) && pipeline.descriptorSets == old(pipeline.descriptorSets)
    {
      var table := textures;
      var names := table.Keys;
      while names != {}
        invariant names <= table.Keys
        invariant forall n, i :: n in table && n !in names && 0 <= i < |table[n]| ==> pipeline in table[n][i].boundPipelines
        invariant forall n, i :: n in table && n !in names && 0 <= i < |table[n]| ==>
          SlotBinds(shader.reflection, pipeline.descriptorSets.Keys, n, i)
        invariant pipeline.material == old(pipeline.material) && pipeline.descriptorSets == old(pipeline.descriptorSets)
        decreases names
      {
        var n :| n in names;
        var slots := table[n];
        for i := 0 to |slots|
          invariant forall n', j :: n' in table && n' !in names && 0 <= j < |table[n']| ==> pipeline in table[n'][j].boundPipelines
          invariant forall n', j :: n' in table && n' !in names && 0 <= j < |table[n']| ==>
            SlotBinds(shader.reflection, pipeline.descriptorSets.Keys, n', j)
          invariant forall j :: 0 <= j < i ==> pipeline in slots[j].boundPipelines
          invariant forall j :: 0 <= j < i ==> SlotBinds(shader.reflection, pipeline.descriptorSets.Keys, n, j)
          invariant pipeline.material == old(pipeline.material) && pipeline.descriptorSets == old(pipeline.descriptorSets)
        {
          var bound := slots[i].BindByName(pipeline, shader.reflection, n, i);
          if bound.Err? {
            assert !SlotBinds(shader.reflection, pipeline.descriptorSets.Keys, n, i);
            assert SlotFailsWith(shader.reflection, pipeline.descriptorSets.Keys, n, i, bound.message);
            return Err(bound.message);
          }
        }
        names := names - {n};
      }
      r := Ok(());
    }

    /** The camera buffer, the light buffer and the material buffer, bound to the pipeline in that order. */
    method BindBuffers(pipeline: Pipeline.Pipeline, camera: Buffers.UniformBuffer) returns (r: Result<()>)
      modifies pipeline, camera, lightBuffer, buffer
      ensures r.Ok? <==> camera.setIndex in pipeline.descriptorSets && lightBuffer.setIndex in pipeline.descriptorSets &&
                          buffer.setIndex in pipeline.descriptorSets
      ensures r.Err? ==> r.message == Buffers.NonexistentSet
      ensures r.Ok? ==> pipeline in camera.boundPipelines && pipeline in lightBuffer.boundPipelines && pipeline in buffer.boundPipelines
      ensures pipeline.material == old(pipeline.material) && pipeline.descriptorSets == old(pipeline.descriptorSets)
    {
      var bound := camera.Bind(pipeline);
      if bound.Err? {
        return Err(bound.message);
      }
      bound := lightBuffer.Bind(pipeline);
      if bound.Err? {
        return Err(bound.message);
      }
      bound := buffer.Bind(pipeline);
      if bound.Err? {
        return Err(bound.message);
      }
      r := Ok(());
    }

    /**
     * `create_pipeline` for a freshly made `pipeline`: the camera buffer, the light buffer,
     * the material buffer and every texture slot are bound to it, then it points back at the
     * material and joins the created pipelines.
     */
    method CreatePipeline(pipeline: Pipeline.Pipeline, camera: Buffers.UniformBuffer) returns (r: Result<()>)
      requires Shader.WellFormed(shader.reflection)
      modifies this, pipeline, camera, lightBuffer, buffer, TextureObjects()
      ensures textures == old(textures)
      ensures r.Ok? <==> camera.setIndex in old(pipeline.descriptorSets) && lightBuffer.setIndex in old(pipeline.descriptorSets) &&
                          buffer.setIndex in old(pipeline.descriptorSets) &&
                          TableBinds(shader.reflection, old(pipeline.descriptorSets).Keys, textures)
      ensures r.Err? ==> r.message == Buffers.NonexistentSet || SlotFailure(shader.reflection, old(pipeline.descriptorSets).Keys, textures, r.message)
      ensures r.Ok? ==> pipeline.material == Some(id) && createdPipelines == old(createdPipelines) + {pipeline}
      ensures r.Ok? ==> pipeline in camera.boundPipelines && pipeline in lightBuffer.boundPipelines && pipeline in buffer.boundPipelines
      ensures r.Ok? ==> forall n, i :: n in textures && 0 <= i < |textures[n]| ==> pipeline in textures[n][i].boundPipelines
      ensures r.Err? ==> createdPipelines == old(createdPipelines) && pipeline.material == old(pipeline.material)
    {
      var buffersBound := BindBuffers(pipeline, camera);
      if buffersBound.Err? {
        return buffersBound;
      }
      var texturesBound := BindTextures(pipeline);
      if texturesBound.Err? {
        return Err(texturesBound.message);
      }
      pipeline.material := Some(id);
      createdPipelines := createdPipelines + {pipeline};
      r := Ok(());
    }

    /** The destructor: no pipeline created from the material points back at it any more. */
    method Dispose()
      modifies createdPipelines
      ensures forall p :: p in createdPipelines ==> p.material == None
      ensures forall p :: p in createdPipelines ==> p.boundTextures == old(p.boundTextures) && p.boundBuffers == old(p.boundBuffers)
    {
      var remaining := createdPipelines;
      while remaining != {}
        invariant remaining <= createdPipelines
        invariant forall p :: p in createdPipelines - remaining ==> p.material == None
        invariant forall p :: p in createdPipelines ==> p.boundTextures == old(p.boundTextures) && p.boundBuffers == old(p.boundBuffers)
        decreases remaining
      {
        var p :| p in remaining;
        p.material := None;
        remaining := remaining - {p};
      }
    }
  }

  /**
   * Slot `slot` of resource `name` binds on a pipeline with descriptor sets `sets`: the
   * shader has a resource of that name and its first one passes `bind`'s checks.
   */
  ghost predicate SlotBinds(data: Shader.ReflectionData, sets: set<nat>, name: string, slot: nat)
    requires Shader.WellFormed(data)
  {
    exists s, b :: Shader.FirstResourceAt(data.resources, s, b, name) && Texture.BindCheck(data, sets, s, b, slot).Ok?
  }

  /** Every slot of the texture table binds on a pipeline with descriptor sets `sets`. */
  ghost predicate TableBinds(data: Shader.ReflectionData, sets: set<nat>, textures: map<string, seq<Texture.Texture>>)
    requires Shader.WellFormed(data)
  {
    forall n, i :: n in textures && 0 <= i < |textures[n]| ==> SlotBinds(data, sets, n, i)
  }

  /** `message` is the error of binding slot `slot` of `name`: no such resource, or its first one failing `bind`'s checks. */
  ghost predicate SlotFailsWith(data: Shader.ReflectionData, sets: set<nat>, name: string, slot: nat, message: string)
    requires Shader.WellFormed(data)
  {
    message == Texture.ResourceNotFound ||
    exists s, b :: Shader.FirstResourceAt(data.resources, s, b, name) &&
      Texture.BindCheck(data, sets, s, b, slot).Err? && message == Texture.BindCheck(data, sets, s, b, slot).message
  }

  /** `message` is the error of binding some slot of the texture table. */
  ghost predicate SlotFailure(data: Shader.ReflectionData, sets: set<nat>, textures: map<string, seq<Texture.Texture>>, message: string)
    requires Shader.WellFormed(data)
  {
    exists n, i :: n in textures && 0 <= i < |textures[n]| && SlotFailsWith(data, sets, n, i, message)
  }

  /**
   * Binding slot `slot` of `resource` succeeds on every pipeline of `pipelines`: when there
   * is one, the shader has a resource of that name, and its first one passes `bind`'s
   * checks on each pipeline.
   */
  ghost predicate BindsEverywhere(data: Shader.ReflectionData, pipelines: set<Pipeline.Pipeline>, resource: string, slot: nat)
    requires Shader.WellFormed(data)
    reads pipelines
  {
    (pipelines != {} ==> exists s, b :: Shader.FirstResourceAt(data.resources, s, b, resource)) &&
    forall p, s, b :: p in pipelines && Shader.FirstResourceAt(data.resources, s, b, resource) ==>
      Texture.BindCheck(data, p.descriptorSets.Keys, s, b, slot).Ok?
  }

  /** `message` is the error of binding `resource` on one of `pipelines`. */
  ghost predicate BindFailure(data: Shader.ReflectionData, pipelines: set<Pipeline.Pipeline>, resource: string, slot: nat, message: string)
    requires Shader.WellFormed(data)
    reads pipelines
  {
    message == Texture.ResourceNotFound ||
    exists p, s, b :: p in pipelines && Shader.FirstResourceAt(data.resources, s, b, resource) &&
      Texture.BindCheck(data, p.descriptorSets.Keys, s, b, slot).Err? &&
      message == Texture.BindCheck(data, p.descriptorSets.Keys, s, b, slot).message
  }

  /**
   * The loop of `set_texture`: the texture is bound by name at `slot` on each pipeline in
   * turn, stopping at the first error.
   */
  method BindOnAll(tex: Texture.Texture, data: Shader.ReflectionData, pipelines: set<Pipeline.Pipeline>, resource: string, slot: nat)
    returns (r: Result<()>)
    requires Shader.WellFormed(data)
    modifies tex, pipelines
    ensures r.Ok? <==> BindsEverywhere(data, pipelines, resource, slot)
    ensures r.Ok? ==> tex.boundPipelines == old(tex.boundPipelines) + pipelines
    ensures r.Ok? ==> forall p, s, b :: p in pipelines && Shader.FirstResourceAt(data.resources, s, b, resource) ==>
      p.boundTextures == old(p.boundTextures)[Pipeline.TextureSlot(s, b, slot) := tex.id]
    ensures r.Err? ==> BindFailure(data, pipelines, resource, slot, r.message)
    ensures forall p :: p in pipelines ==> p.descriptorSets == old(p.descriptorSets) && p.material == old(p.material)
  {
    var remaining := pipelines;
    while remaining != {}
      invariant remaining <= pipelines
      invariant tex.boundPipelines == old(tex.boundPipelines) + (pipelines - remaining)
      invariant forall p :: p in pipelines ==> p.descriptorSets == old(p.descriptorSets) && p.material == old(p.material)
      invariant forall p :: p in remaining ==> p.boundTextures == old(p.boundTextures)
      invariant pipelines - remaining != {} ==> exists s, b :: Shader.FirstResourceAt(data.resources, s, b, resource)
      invariant forall p, s, b :: p in pipelines - remaining && Shader.FirstResourceAt(data.resources, s, b, resource) ==>
        Texture.BindCheck(data, p.descriptorSets.Keys, s, b, slot).Ok? &&
        p.boundTextures == old(p.boundTextures)[Pipeline.TextureSlot(s, b, slot) := tex.id]
      decreases remaining
    {
      var p :| p in remaining;
      var bound := tex.BindByName(p, data, resource, slot);
      if bound.Err? {
        if exists s, b :: Shader.FirstResourceAt(data.resources, s, b, resource) {
          var s, b :| Shader.FirstResourceAt(data.resources, s, b, resource);
          assert !Texture.BindCheck(data, p.descriptorSets.Keys, s, b, slot).Ok?;
        }
        return Err(bound.message);
      }
      remaining := remaining - {p};
    }
    r := Ok(());
  }

  /** The first resource named `name` exists and is a uniform buffer, so a buffer can be made for it. */
  ghost predicate UniformBufferAvailable(data: Shader.ReflectionData, name: string)
    requires Shader.WellFormed(data)
  {
    exists s, b :: Shader.FirstResourceAt(data.resources, s, b, name) && Buffers.UniformBufferSize(data, s, b).Ok?
  }

  /** The shader is registered in the library under some name. */
  predicate InLibrary(library: Shader.ShaderLibrary, shader: Shader.ShaderObject?)
    reads library
  {
    exists n :: n in library.shaders && library.shaders[n] == shader
  }

  /** The name a new material gets. */
  const DefaultName: string := "Material"
  const UnknownTexture: string := "the specified texture resource does not exist!"
  const NoLightBuffer: string := "the passed shader does not have a light buffer!"
  const MaterialDataName: string := "material_data"

  /**
   * The `material` constructor: refused before `init` and for a null shader; the shader
   * must have a "material_data" resource, which gets a uniform buffer; the light buffer is
   * the one the light system made for the shader's library name or, for a shader outside
   * the library, a new one for its own "light_data"; then the texture table is filled
   * with the white texture.
   */
  method NewMaterial(data: MaterialData, shader: Shader.ShaderObject?, library: Shader.ShaderLibrary, lights: Light.LightData,
                     white: Texture.Texture, id: nat, bufferId: nat, lightBufferId: nat) returns (r: Result<Material>)
    requires shader != null ==> Shader.WellFormed(shader.reflection)
    ensures data.swapchain == null ==> r == Err("the material system has not been initialized!")
    ensures data.swapchain != null && shader == null ==> r == Err("passed nullptr!")
    ensures (data.swapchain != null && shader != null &&
             forall s, b :: !Shader.ResourceAt(shader.reflection.resources, s, b, "material_data")) ==>
      r == Err("could not find material buffer!")
    ensures r.Ok? ==> fresh(r.value) && r.value.id == id && r.value.swapchain == data.swapchain && r.value.shader == shader
    ensures r.Ok? ==> r.value.name == DefaultName && r.value.createdPipelines == {}
    ensures r.Ok? ==> Shader.ResourceAt(shader.reflection.resources, r.value.setIndex, r.value.binding, "material_data")
    ensures r.Ok? ==> fresh(r.value.buffer) && r.value.buffer.setIndex == r.value.setIndex && r.value.buffer.binding == r.value.binding
    ensures r.Ok? && (exists n :: n in library.shaders && library.shaders[n] == shader) ==>
      exists n :: n in library.shaders && library.shaders[n] == shader && r.value.lightBuffer == lights.GetBuffer(n)
    ensures r.Ok? ==> forall n :: n in r.value.textures ==> WhiteSlots(shader.reflection, n, r.value.textures[n], white)
    ensures r.Ok? ==> forall n :: n in r.value.textures <==> exists s, b :: SampledAt(shader.reflection, s, b, n)
    ensures r.Ok? ==> data.swapchain != null && shader != null && UniformBufferAvailable(shader.reflection, MaterialDataName)
    ensures data.swapchain != null && shader != null ==>
      forall s, b :: Shader.FirstResourceAt(shader.reflection.resources, s, b, MaterialDataName) &&
                     Buffers.UniformBufferSize(shader.reflection, s, b).Err? ==>
        r == Err(Buffers.UniformBufferSize(shader.reflection, s, b).message)
    ensures r.Ok? && !InLibrary(library, shader) ==>
      fresh(r.value.lightBuffer) && Shader.FirstResourceAt(shader.reflection.resources, r.value.lightBuffer.setIndex,
                                                           r.value.lightBuffer.binding, Light.LightDataName)
    ensures r.Ok? && !InLibrary(library, shader) ==> UniformBufferAvailable(shader.reflection, Light.LightDataName)
    ensures data.swapchain != null && shader != null && UniformBufferAvailable(shader.reflection, MaterialDataName) ==>
      (!InLibrary(library, shader) && forall s, b :: !Shader.ResourceAt(shader.reflection.resources, s, b, Light.LightDataName)) ==>
        r == Err(NoLightBuffer)
    ensures data.swapchain != null && shader != null && UniformBufferAvailable(shader.reflection, MaterialDataName) ==>
      (InLibrary(library, shader) && forall n :: n in library.shaders && library.shaders[n] == shader ==> lights.GetBuffer(n) == null) ==>
        r == Err(NoLightBuffer)
    ensures data.swapchain != null && shader != null && UniformBufferAvailable(shader.reflection, MaterialDataName) ==>
      (if InLibrary(library, shader)
       then forall n :: n in library.shaders && library.shaders[n] == shader ==> lights.GetBuffer(n) != null
       else UniformBufferAvailable(shader.reflection, Light.LightDataName)) ==>
        r.Ok?
  {
    var swapchain := data.swapchain;
    if swapchain == null {
      return Err("the material system has not been initialized!");
    }
    if shader == null {
      return Err("passed nullptr!");
    }
    var reflection := shader.reflection;
    var found, setIndex, binding := Shader.FindResource(reflection.resources, MaterialDataName, 0, 0);
    if !found {
      return Err("could not find material buffer!");
    }
    assert Shader.FirstResourceAt(reflection.resources, setIndex, binding, MaterialDataName);
    var buffer := Buffers.FromShaderData(bufferId, reflection, setIndex, binding);
    if buffer.Err? {
      return Err(buffer.message);
    }
    var libraryName := LibraryName(library, shader);
    var lightBuffer: Buffers.UniformBuffer;
    if libraryName.None? {
      var lightFound, lightSet, lightBinding := Shader.FindResource(reflection.resources, Light.LightDataName, 0, 0);
      assert lightFound ==> Shader.FirstResourceAt(reflection.resources, lightSet, lightBinding, Light.LightDataName);
      if !lightFound {
        return Err(NoLightBuffer);
      }
      var created := Buffers.FromShaderData(lightBufferId, reflection, lightSet, lightBinding);
      if created.Err? {
        return Err(created.message);
      }
      lightBuffer := created.value;
    } else {
      var existing := lights.GetBuffer(libraryName.value);
      if existing == null {
        return Err(NoLightBuffer);
      }
      lightBuffer := existing;
    }
    var textures := InitialTextures(reflection, white);
    var material := new Material(id, swapchain, shader, setIndex, binding, buffer.value, lightBuffer, textures);
    r := Ok(material);
  }
}
