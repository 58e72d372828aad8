/**
 * The buffers of src/buffers.cpp: the byte size of an index buffer, the size and checks
 * of a uniform buffer made from a shader's reflection data, the bounds-checked reads and
 * writes of a uniform buffer's host-visible memory, and the back-references between a
 * uniform buffer and the pipelines it is bound to.
 */
module Buffers {
  import opened Wrappers
  import Util
  import Shader
  import Pipeline

  // ---------------------------------------------------------------- index buffer

  /** An index is a `uint32_t`: four bytes. */
  const IndexSize: nat := 4

  /** The error of a read or write past the end of a uniform buffer. */
  const OutOfLimits: string := "attempted to map memory outside the buffer's limits!"

  /** The error of binding a uniform buffer to a pipeline without its descriptor set. */
  const NonexistentSet: string := "attempted to bind to a nonexistent descriptor set!"

  /** `index_buffer`: the index count it was made with and the byte size of its buffers. */
  class IndexBuffer {
    const indexCount: nat
    const byteSize: nat

    constructor (indices: seq<nat>)
      ensures indexCount == |indices|
      ensures byteSize == |indices| * IndexSize
    {
      indexCount := |indices|;
      byteSize := |indices| * IndexSize;
    }
  }

  // ---------------------------------------------------------------- uniform buffer memory

  /** The memory after copying `data` to `offset`. */
  function Written(memory: seq<Util.Byte>, data: seq<Util.Byte>, offset: nat): (r: seq<Util.Byte>)
    requires offset + |data| <= |memory|
    ensures |r| == |memory|
  {
    memory[..offset] + data + memory[offset + |data|..]
  }

  /** The `size` bytes at `offset`. */
  function Read(memory: seq<Util.Byte>, size: nat, offset: nat): (r: seq<Util.Byte>)
    requires offset + size <= |memory|
    ensures |r| == size
  {
    memory[offset..offset + size]
  }

  /** Reading back the range just written gives the written bytes. */
  lemma ReadWritten(memory: seq<Util.Byte>, data: seq<Util.Byte>, offset: nat)
    requires offset + |data| <= |memory|
    ensures Read(Written(memory, data, offset), |data|, offset) == data
  {
    var w := Written(memory, data, offset);
    assert forall i :: 0 <= i < |data| ==> w[offset + i] == data[i];
  }

  /** A write leaves every byte outside its range as it was. */
  lemma WrittenElsewhere(memory: seq<Util.Byte>, data: seq<Util.Byte>, offset: nat, i: nat)
    requires offset + |data| <= |memory| && i < |memory|
    requires i < offset || offset + |data| <= i
    ensures Written(memory, data, offset)[i] == memory[i]
  {
    if i >= offset + |data| {
      assert Written(memory, data, offset)[i] == memory[offset + |data|..][i - offset - |data|];
    }
  }

  /** The size of a uniform buffer for (set, binding) of a shader: its type's size, if it is a uniform buffer at all. */
  function UniformBufferSize(data: Shader.ReflectionData, setIndex: nat, binding: nat): (r: Result<nat>)
    requires Shader.WellFormed(data)
    ensures setIndex !in data.resources ==> r == Err("the specified set does not exist!")
    ensures setIndex in data.resources && binding !in data.resources[setIndex] ==> r == Err("the specified binding does not exist!")
    ensures r.Ok? <==> (setIndex in data.resources && binding in data.resources[setIndex] &&
                        data.resources[setIndex][binding].resourceType == Shader.UniformBuffer)
    ensures r.Ok? ==> r.value == data.types[data.resources[setIndex][binding].typeIndex].size
  {
    if setIndex !in data.resources then Err("the specified set does not exist!")
    else if binding !in data.resources[setIndex] then Err("the specified binding does not exist!")
    else
      var resource := data.resources[setIndex][binding];
      if resource.resourceType != Shader.UniformBuffer then Err("the specified binding is not a uniform buffer!")
      else Ok(data.types[resource.typeIndex].size)
  }

  /** The descriptor write `bind` issues for one descriptor set: this buffer at its binding, as one uniform buffer. */
  datatype DescriptorWrite = DescriptorWrite(setElement: nat, binding: nat, descriptorType: nat, descriptorCount: nat)

  /** A pipeline's bound-buffer table with `id` entered at (set, binding). */
  function Attached(bound: map<nat, map<nat, nat>>, setIndex: nat, binding: nat, id: nat): (r: map<nat, map<nat, nat>>)
    ensures setIndex in r && binding in r[setIndex] && r[setIndex][binding] == id
    ensures forall s :: s in bound ==> s in r
    ensures forall s, b :: s in bound && b in bound[s] && (s, b) != (setIndex, binding) ==> b in r[s] && r[s][b] == bound[s][b]
  {
    var bindings: map<nat, nat> := if setIndex in bound then bound[setIndex] else map[];
    bound[setIndex := bindings[binding := id]]
  }

  /**
   * A pipeline's bound-buffer table after this buffer's destructor: the entry at
   * (set, binding) goes only if it still names this buffer. Looking up the set also
   * creates an empty entry for it when there was none.
   */
  function Detached(bound: map<nat, map<nat, nat>>, setIndex: nat, binding: nat, id: nat): (r: map<nat, map<nat, nat>>)
    ensures setIndex in r && r.Keys == bound.Keys + {setIndex}
    ensures binding in r[setIndex] ==> r[setIndex][binding] != id
    ensures setIndex in bound && binding in bound[setIndex] && bound[setIndex][binding] != id ==> r == bound
    ensures forall s :: s in bound && s != setIndex ==> r[s] == bound[s]
  {
    var bindings: map<nat, nat> := if setIndex in bound then bound[setIndex] else map[];
    if binding in bindings && bindings[binding] == id then bound[setIndex := bindings - {binding}]
    else bound[setIndex := bindings]
  }

  /** Entering a buffer and then detaching it removes its entry and keeps the others. */
  lemma AttachedThenDetached(bound: map<nat, map<nat, nat>>, setIndex: nat, binding: nat, id: nat)
    ensures binding !in Detached(Attached(bound, setIndex, binding, id), setIndex, binding, id)[setIndex]
    ensures var bindings: map<nat, nat> := if setIndex in bound then bound[setIndex] else map[];
            Detached(Attached(bound, setIndex, binding, id), setIndex, binding, id) == bound[setIndex := bindings - {binding}]
  {
    var bindings: map<nat, nat> := if setIndex in bound then bound[setIndex] else map[];
    var attached := Attached(bound, setIndex, binding, id);
    assert attached[setIndex] == bindings[binding := id];
    assert bindings[binding := id] - {binding} == bindings - {binding};
    assert attached[setIndex := bindings - {binding}] == bound[setIndex := bindings - {binding}];
  }

  /** `uniform_buffer`: where it binds, its host-visible memory, and the pipelines it was bound to. */
  class UniformBuffer {
    const id: nat
    const setIndex: nat
    const binding: nat
    const memory: array<Util.Byte>
    /** `m_bound_pipelines`. */
    var boundPipelines: set<Pipeline.Pipeline>

    /** The memory's size, `m_size`. */
    function Size(): nat
    {
      memory.Length
    }

    constructor (id: nat, setIndex: nat, binding: nat, size: nat)
      ensures this.id == id && this.setIndex == setIndex && this.binding == binding
      ensures Size() == size && fresh(memory) && boundPipelines == {}
    {
      this.id := id;
      this.setIndex := setIndex;
      this.binding := binding;
      memory := new Util.Byte[size];
      boundPipelines := {};
    }

    /** `set_data`: a write past the end is refused; otherwise the bytes at `offset` become `data`. */
    method SetData(data: seq<Util.Byte>, offset: nat) returns (r: Result<()>)
      modifies memory
      ensures r.Ok? <==> offset + |data| <= Size()
      ensures !r.Ok? ==> r.message == OutOfLimits
      ensures r.Ok? ==> memory[..] == Written(old(memory[..]), data, offset)
      ensures !r.Ok? ==> memory[..] == old(memory[..])
    {
      if offset + |data| > memory.Length {
        return Err(OutOfLimits);
      }
      for i := 0 to |data|
        invariant forall j :: 0 <= j < i ==> memory[offset + j] == data[j]
        invariant forall j :: 0 <= j < memory.Length && !(offset <= j < offset + i) ==> memory[j] == old(memory[j])
      {
        memory[offset + i] := data[i];
      }
      assert memory[..] == Written(old(memory[..]), data, offset) by {
        forall j | 0 <= j < memory.Length
          ensures memory[j] == Written(old(memory[..]), data, offset)[j]
        {
          if offset <= j < offset + |data| {
            assert memory[j] == data[j - offset];
          } else {
            WrittenElsewhere(old(memory[..]), data, offset, j);
          }
        }
      }
      r := Ok(());
    }

    /** `get_data`: a read past the end is refused; otherwise the `size` bytes at `offset`. Nothing changes. */
    method GetData(size: nat, offset: nat) returns (r: Result<seq<Util.Byte>>)
      ensures r.Ok? <==> offset + size <= Size()
      ensures !r.Ok? ==> r.message == OutOfLimits
      ensures r.Ok? ==> r.value == Read(memory[..], size, offset)
    {
      if offset + size > memory.Length {
        return Err(OutOfLimits);
      }
      var data: seq<Util.Byte> := [];
      for i := 0 to size
        invariant data == memory[offset..offset + i]
      {
        data := data + [memory[offset + i]];
      }
      r := Ok(data);
    }

    /** `zero`: every byte of the buffer becomes 0. */
    method Zero()
      modifies memory
      ensures forall i :: 0 <= i < Size() ==> memory[i] == 0
    {
      Util.Zero(memory, 0, memory.Length);
    }

    /**
     * `bind`: refused if the pipeline has no descriptor set for this buffer's set; otherwise
     * one write per allocated descriptor set, and the pipeline and this buffer refer to
     * each other.
     */
    method Bind(pipeline: Pipeline.Pipeline) returns (r: Result<seq<DescriptorWrite>>)
      modifies this, pipeline
      ensures r.Ok? <==> setIndex in pipeline.descriptorSets
      ensures r.Err? ==> r.message == NonexistentSet
      ensures r.Ok? ==> |r.value| == pipeline.descriptorSets[setIndex].setCount
      ensures r.Ok? ==> forall i :: 0 <= i < |r.value| ==>
        r.value[i] == DescriptorWrite(i, binding, Pipeline.DescriptorUniformBuffer, 1)
      ensures r.Ok? ==> boundPipelines == old(boundPipelines) + {pipeline}
      ensures r.Ok? ==> pipeline.boundBuffers == Attached(old(pipeline.boundBuffers), setIndex, binding, id)
      ensures !r.Ok? ==> boundPipelines == old(boundPipelines) && pipeline.boundBuffers == old(pipeline.boundBuffers)
      ensures pipeline.descriptorSets == old(pipeline.descriptorSets) && pipeline.boundTextures == old(pipeline.boundTextures)
      ensures pipeline.state == old(pipeline.state) && pipeline.events == old(pipeline.events)
      ensures pipeline.material == old(pipeline.material)
    {
      if setIndex !in pipeline.descriptorSets {
        return Err(NonexistentSet);
      }
      var writes: seq<DescriptorWrite> := [];
      for i := 0 to pipeline.descriptorSets[setIndex].setCount
        invariant |writes| == i
        invariant forall j :: 0 <= j < i ==> writes[j] == DescriptorWrite(j, binding, Pipeline.DescriptorUniformBuffer, 1)
      {
        writes := writes + [DescriptorWrite(i, binding, Pipeline.DescriptorUniformBuffer, 1)];
      }
      if pipeline !in boundPipelines {
        boundPipelines := boundPipelines + {pipeline};
      }
      var bindings: map<nat, nat> := if setIndex in pipeline.boundBuffers then pipeline.boundBuffers[setIndex] else map[];
      if binding !in bindings || bindings[binding] != id {
        pipeline.boundBuffers := pipeline.boundBuffers[setIndex := bindings[binding := id]];
      } else {
        assert bindings[binding := id] == bindings;
        assert pipeline.boundBuffers[setIndex := bindings] == pipeline.boundBuffers;
      }
      r := Ok(writes);
    }

    /** The destructor: every pipeline it was bound to forgets it, unless another buffer has taken its place. */
    method Dispose()
      modifies boundPipelines
      ensures forall p :: p in boundPipelines ==> p.boundBuffers == Detached(old(p.boundBuffers), setIndex, binding, id)
      ensures forall p :: p in boundPipelines ==>
        p.boundTextures == old(p.boundTextures) && p.descriptorSets == old(p.descriptorSets) && p.material == old(p.material)
    {
      var remaining := boundPipelines;
      while remaining != {}
        invariant remaining <= boundPipelines
        invariant forall p :: p in boundPipelines - remaining ==> p.boundBuffers == Detached(old(p.boundBuffers), setIndex, binding, id)
        invariant forall p :: p in remaining ==> p.boundBuffers == old(p.boundBuffers)
        invariant forall p :: p in boundPipelines ==>
          p.boundTextures == old(p.boundTextures) && p.descriptorSets == old(p.descriptorSets) && p.material == old(p.material)
        decreases remaining
      {
        var p :| p in remaining;
        p.boundBuffers := Detached(p.boundBuffers, setIndex, binding, id);
        remaining := remaining - {p};
      }
    }
  }

  /** `from_shader_data`: a buffer for (set, binding) sized by the reflected type, or the reason there is none. */
  method FromShaderData(id: nat, data: Shader.ReflectionData, setIndex: nat, binding: nat) returns (r: Result<UniformBuffer>)
    requires Shader.WellFormed(data)
    ensures r.Ok? <==> UniformBufferSize(data, setIndex, binding).Ok?
    ensures r.Ok? ==> fresh(r.value) && fresh(r.value.memory) && r.value.Size() == UniformBufferSize(data, setIndex, binding).value
    ensures r.Ok? ==> r.value.setIndex == setIndex && r.value.binding == binding && r.value.boundPipelines == {}
    ensures !r.Ok? ==> r == Err(UniformBufferSize(data, setIndex, binding).message)
  {
    var size := UniformBufferSize(data, setIndex, binding);
    if size.Err? {
      return Err(size.message);
    }
    var buffer := new UniformBuffer(id, setIndex, binding, size.value);
    r := Ok(buffer);
  }
}
