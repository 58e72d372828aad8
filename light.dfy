/**
 * The light buffers of src/light.cpp. Every shader of the library that declares a
 * "light_data" uniform buffer gets one buffer. A light of a given type appends its
 * entities to the "<type>s" array of every buffer, keeping the "<type>_count" field as a
 * counter: each entity reads the count, takes it as its index, stores count + 1 and then
 * writes its fields at "<type>s[index].<field>".
 *
 * The count is an `int32_t` in host memory, stored little-endian (the byte order of the
 * platforms the program targets).
 */
module Light {
  import opened Wrappers
  import opened Util
  import Strings
  import Shader
  import Buffers

  datatype LightType = Spotlight | Point | Directional

  /** The type names `update_buffers` derives its field names from. */
  function TypeName(t: LightType): (name: string)
  {
    match t
    case Spotlight => "spotlight"
    case Point => "point_light"
    case Directional => "directional_light"
  }

  /** "<type>_count": how many lights of the type the buffer holds. */
  function CountField(t: LightType): (name: string)
  {
    TypeName(t) + "_count"
  }

  /** "<type>s": the array of those lights. */
  function ArrayField(t: LightType): (name: string)
  {
    TypeName(t) + "s"
  }

  /** The field names are plain field names: no '.', '[' or ']' that `find_offset` would split at. */
  lemma PlainFieldNames(t: LightType)
    ensures Shader.PlainName(CountField(t)) && Shader.PlainName(ArrayField(t))
  {
    PlainTypeName(t);
    PlainAppend(TypeName(t), "_count");
    PlainAppend(TypeName(t), "s");
  }

  /** The type names themselves are plain names. */
  lemma PlainTypeName(t: LightType)
    ensures Shader.PlainName(TypeName(t))
  {
    var name := TypeName(t);
    assert forall i :: 0 <= i < |name| ==> 'a' <= name[i] <= 'z' || name[i] == '_';
  }

  /** A plain name followed by text without '.', '[' or ']' is a plain name. */
  lemma PlainAppend(name: string, suffix: string)
    requires Shader.PlainName(name) && '.' !in suffix && '[' !in suffix && ']' !in suffix
    ensures Shader.PlainName(name + suffix)
  {
    assert forall c :: c in name + suffix ==> c in name || c in suffix;
  }

  /** No two light types share a field, and no count field is an array field. */
  lemma DistinctFieldNames(a: LightType, b: LightType)
    ensures CountField(a) != ArrayField(b)
    ensures a != b ==> CountField(a) != CountField(b) && ArrayField(a) != ArrayField(b)
  {
    var count := CountField(a);
    var entries := ArrayField(b);
    assert count[|count| - 1] == 't';
    assert entries[|entries| - 1] == 's';
    if a != b {
      assert TypeName(a)[0] != TypeName(b)[0];
      assert CountField(a)[0] == TypeName(a)[0] && CountField(b)[0] == TypeName(b)[0];
      assert ArrayField(a)[0] == TypeName(a)[0] && ArrayField(b)[0] == TypeName(b)[0];
    }
  }

  // ---------------------------------------------------------------- the count in memory

  const Two31: int := 0x8000_0000
  const Two32: int := 0x1_0000_0000
  const Two64: int := 0x1_0000_0000_0000_0000

  /** The `int32_t` held little-endian in four bytes. */
  function DecodeInt32(bytes: seq<Byte>): (v: int)
    requires |bytes| == 4
    ensures -Two31 <= v < Two31
  {
    var u := bytes[0] as int + 0x100 * bytes[1] as int + 0x1_0000 * bytes[2] as int + 0x100_0000 * bytes[3] as int;
    if u >= Two31 then u - Two32 else u
  }

  /** The four little-endian bytes of an `int32_t`. */
  function EncodeInt32(v: int): (bytes: seq<Byte>)
    requires -Two31 <= v < Two31
    ensures |bytes| == 4
  {
    var u := if v < 0 then v + Two32 else v;
    var u1 := u / 0x100;
    var u2 := u1 / 0x100;
    [(u % 0x100) as Byte, (u1 % 0x100) as Byte, (u2 % 0x100) as Byte, (u2 / 0x100) as Byte]
  }

  /** Division by 256 of `256 × high + low` with `low` a byte value. */
  lemma SplitByte(x: int, high: int, low: int)
    requires 0 <= low < 0x100 && x == 0x100 * high + low
    ensures x / 0x100 == high && x % 0x100 == low
  {
  }

  /** Storing a count and reading it back gives the count. */
  lemma DecodeEncode(v: int)
    requires -Two31 <= v < Two31
    ensures DecodeInt32(EncodeInt32(v)) == v
  {
    var u := if v < 0 then v + Two32 else v;
    var u1 := u / 0x100;
    var u2 := u1 / 0x100;
    SplitByte(u, u1, u % 0x100);
    SplitByte(u1, u2, u1 % 0x100);
    SplitByte(u2, u2 / 0x100, u2 % 0x100);
    var b := EncodeInt32(v);
    assert u == b[0] as int + 0x100 * b[1] as int + 0x1_0000 * b[2] as int + 0x100_0000 * b[3] as int;
  }

  /** Reading a count and storing it back leaves the bytes as they were. */
  lemma EncodeDecode(bytes: seq<Byte>)
    requires |bytes| == 4
    ensures EncodeInt32(DecodeInt32(bytes)) == bytes
  {
    var b0, b1, b2, b3 := bytes[0] as int, bytes[1] as int, bytes[2] as int, bytes[3] as int;
    var u2 := b2 + 0x100 * b3;
    var u1 := b1 + 0x100 * u2;
    var u := b0 + 0x100 * u1;
    assert u == b0 + 0x100 * b1 + 0x1_0000 * b2 + 0x100_0000 * b3;
    SplitByte(u, u1, b0);
    SplitByte(u1, u2, b1);
    SplitByte(u2, b3, b2);
  }

  /** `count++` on an `int32_t`, wrapping in two's complement at the top. */
  function Increment(count: int): (r: int)
    requires -Two31 <= count < Two31
    ensures -Two31 <= r < Two31
    ensures count < Two31 - 1 ==> r == count + 1
  {
    if count == Two31 - 1 then -Two31 else count + 1
  }

  /** The `size_t` an `int32_t` converts to: negative counts wrap to huge indices. */
  function SizeT(count: int): (index: nat)
    requires -Two31 <= count < Two31
    ensures count >= 0 ==> index == count
    ensures count < 0 ==> index >= Two64 - Two31
  {
    if count < 0 then count + Two64 else count
  }

  // ---------------------------------------------------------------- one buffer

  /** One call of the per-entity `set` callback: a field of the array element, its bytes, and whether it may be missing. */
  datatype FieldWrite = FieldWrite(name: string, data: seq<Byte>, optional: bool)

  /** Where a light type's entries live in one buffer: the buffer's type, its array field and the count's offset. */
  datatype Slot = Slot(types: seq<Shader.ShaderType>, typeIndex: nat, arrayField: string, countOffset: nat)

  /** The buffer's type has the array field, and that field is an array. */
  predicate SlotOk(slot: Slot)
  {
    Shader.TypesClosed(slot.types) && slot.typeIndex < |slot.types| &&
    slot.arrayField in slot.types[slot.typeIndex].fields &&
    slot.types[slot.types[slot.typeIndex].fields[slot.arrayField].typeIndex].arrayStride != 0
  }

  /** The element type of the array. */
  function ArrayType(slot: Slot): (t: Shader.ShaderType)
    requires SlotOk(slot)
  {
    slot.types[slot.types[slot.typeIndex].fields[slot.arrayField].typeIndex]
  }

  /** "<type>s[index].": the prefix of an entry's field paths. */
  function EntryPrefix(arrayField: string, index: nat): (prefix: string)
    ensures prefix == arrayField + "[" + Strings.Decimal(index) + "]" + "."
  {
    arrayField + "[" + Strings.Decimal(index) + "]" + "."
  }

  /** The offset `find_offset` gives the field of entry `index`. */
  function FieldOffset(slot: Slot, index: nat, name: string): (r: Result<int>)
    requires SlotOk(slot)
  {
    Shader.FindOffset(slot.types, slot.typeIndex, EntryPrefix(slot.arrayField, index) + name)
  }

  /**
   * The field of entry `index` sits at the array field's offset, plus index × the array
   * stride, plus the field's offset within the element; a name the element lacks is an error.
   */
  lemma FieldOffsetMeaning(slot: Slot, index: nat, name: string)
    requires SlotOk(slot) && Shader.PlainName(slot.arrayField) && Shader.PlainName(name)
    ensures name in ArrayType(slot).fields ==>
      var entries := slot.types[slot.typeIndex].fields[slot.arrayField];
      var r := FieldOffset(slot, index, name);
      r.Ok? && r.value == entries.offset + index * ArrayType(slot).arrayStride + ArrayType(slot).fields[name].offset
    ensures name !in ArrayType(slot).fields ==> FieldOffset(slot, index, name).Err?
  {
    Shader.FindOffsetEntry(slot.types, slot.typeIndex, slot.arrayField, index, name);
  }

  /** The fields every light writes for each of its entities. */
  const PositionField: string := "position"
  const ColorField: string := "color"

  /** The message of a write past the end of the buffer. */
  const OutOfLimits: string := Buffers.OutOfLimits

  /**
   * The `set` callback as it is evidently meant to work: a missing field is skipped when
   * optional and an error otherwise; a present field's bytes are written at its offset.
   */
  function SetField(memory: seq<Byte>, slot: Slot, index: nat, w: FieldWrite): (r: Result<seq<Byte>>)
    requires SlotOk(slot)
    ensures r.Ok? ==> |r.value| == |memory|
    ensures w.name !in ArrayType(slot).fields ==> (r.Ok? <==> w.optional) && (r.Ok? ==> r.value == memory)
    ensures w.name !in ArrayType(slot).fields && !w.optional ==> r == Err("field \"" + w.name + "\" does not exist!")
    ensures w.name in ArrayType(slot).fields && FieldOffset(slot, index, w.name).Err? ==>
      r == Err(FieldOffset(slot, index, w.name).message)
    ensures w.name in ArrayType(slot).fields && FieldOffset(slot, index, w.name).Ok? ==>
      var off := FieldOffset(slot, index, w.name).value;
      (r.Ok? <==> 0 <= off && off + |w.data| <= |memory|) &&
      (r.Err? ==> r.message == OutOfLimits) &&
      (r.Ok? ==> r.value == Buffers.Written(memory, w.data, off) &&
                 r.value[off..off + |w.data|] == w.data &&
                 r.value[..off] == memory[..off] && r.value[off + |w.data|..] == memory[off + |w.data|..])
  {
    if w.name !in ArrayType(slot).fields then
      if w.optional then Ok(memory) else Err("field \"" + w.name + "\" does not exist!")
    else match FieldOffset(slot, index, w.name)
      case Err(m) => Err(m)
      case Ok(offset) =>
        if offset < 0 || offset + |w.data| > |memory| then Err(OutOfLimits)
        else Ok(Buffers.Written(memory, w.data, offset))
  }

  /**
   * The `set` callback as written: the test is inverted, so a present field is skipped
   * (optional) or reported missing, and a missing one is looked up anyway; nothing is written.
   */
  function SetFieldAsWritten(slot: Slot, index: nat, w: FieldWrite): (r: Result<()>)
    requires SlotOk(slot)
    ensures w.name in ArrayType(slot).fields ==> (r.Ok? <==> w.optional)
  {
    if w.name in ArrayType(slot).fields then
      if w.optional then Ok(()) else Err("field \"" + w.name + "\" does not exist!")
    else match FieldOffset(slot, index, w.name)
      case Err(m) => Err(m)
      case Ok(_) => Ok(())
  }

  /** As written, a field that is not optional (every light's "color") can never be set. */
  lemma RequiredFieldAlwaysFailsAsWritten(slot: Slot, index: nat, w: FieldWrite)
    requires SlotOk(slot) && Shader.PlainName(slot.arrayField) && Shader.PlainName(w.name)
    requires !w.optional
    ensures SetFieldAsWritten(slot, index, w).Err?
  {
    FieldOffsetMeaning(slot, index, w.name);
  }

  /** An entity's `set` calls, in order. */
  function SetFields(memory: seq<Byte>, slot: Slot, index: nat, writes: seq<FieldWrite>): (r: Result<seq<Byte>>)
    requires SlotOk(slot)
    ensures r.Ok? ==> |r.value| == |memory|
    decreases |writes|
  {
    if writes == [] then Ok(memory)
    else match SetFields(memory, slot, index, writes[..|writes| - 1])
      case Err(m) => Err(m)
      case Ok(m) => SetField(m, slot, index, writes[|writes| - 1])
  }

  /** The first failing `set` call ends the entity with its error. */
  lemma {:induction false} SetFieldsFailFast(memory: seq<Byte>, slot: Slot, index: nat, writes: seq<FieldWrite>, j: nat)
    requires SlotOk(slot) && j <= |writes|
    requires SetFields(memory, slot, index, writes[..j]).Err?
    ensures SetFields(memory, slot, index, writes) == SetFields(memory, slot, index, writes[..j])
    decreases |writes| - j
  {
    if j < |writes| {
      assert writes[..j + 1][..j] == writes[..j];
      SetFieldsFailFast(memory, slot, index, writes, j + 1);
    } else {
      assert writes[..j] == writes;
    }
  }

  /** What one entity of the light contributes: the bytes of its transform's translation, and the `set` calls of `update_typed_light_data`. */
  datatype LightEntity = LightEntity(position: seq<Byte>, typed: seq<FieldWrite>)

  /** An entity's `set` calls: its "position" (optional), the light's "color" (required), then its typed data. */
  function EntityWrites(color: seq<Byte>, e: LightEntity): seq<FieldWrite>
  {
    [FieldWrite(PositionField, e.position, true), FieldWrite(ColorField, color, false)] + e.typed
  }

  /** One entity: take the count as the index (refused past the array's size), store count + 1, then set the fields. */
  function AddEntity(memory: seq<Byte>, slot: Slot, color: seq<Byte>, e: LightEntity): (r: Result<seq<Byte>>)
    requires SlotOk(slot)
    ensures r.Ok? ==> |r.value| == |memory|
  {
    if slot.countOffset + 4 > |memory| then Err(OutOfLimits)
    else
      var count := DecodeInt32(Buffers.Read(memory, 4, slot.countOffset));
      var index := SizeT(count);
      if index >= ArrayType(slot).arraySize then
        Err("cannot have more than " + Strings.Decimal(ArrayType(slot).arraySize) + " of this light type!")
      else SetFields(Buffers.Written(memory, EncodeInt32(Increment(count)), slot.countOffset), slot, index, EntityWrites(color, e))
  }

  /** The entities of the light, in order. */
  function AddEntities(memory: seq<Byte>, slot: Slot, color: seq<Byte>, entities: seq<LightEntity>): (r: Result<seq<Byte>>)
    requires SlotOk(slot)
    ensures r.Ok? ==> |r.value| == |memory|
    decreases |entities|
  {
    if entities == [] then Ok(memory)
    else match AddEntities(memory, slot, color, entities[..|entities| - 1])
      case Err(m) => Err(m)
      case Ok(m) => AddEntity(m, slot, color, entities[|entities| - 1])
  }

  /** The first failing entity ends the update with its error. */
  lemma {:induction false} AddEntitiesFailFast(memory: seq<Byte>, slot: Slot, color: seq<Byte>, entities: seq<LightEntity>, k: nat)
    requires SlotOk(slot) && k <= |entities|
    requires AddEntities(memory, slot, color, entities[..k]).Err?
    ensures AddEntities(memory, slot, color, entities) == AddEntities(memory, slot, color, entities[..k])
    decreases |entities| - k
  {
    if k < |entities| {
      assert entities[..k + 1][..k] == entities[..k];
      AddEntitiesFailFast(memory, slot, color, entities, k + 1);
    } else {
      assert entities[..k] == entities;
    }
  }

  /** A field write of any entry stays clear of the count's four bytes. */
  predicate AvoidsCount(slot: Slot, index: nat, w: FieldWrite)
    requires SlotOk(slot)
  {
    FieldOffset(slot, index, w.name).Ok? ==>
      var offset := FieldOffset(slot, index, w.name).value;
      offset + |w.data| <= slot.countOffset || slot.countOffset + 4 <= offset
  }

  predicate EntityAvoidsCount(slot: Slot, writes: seq<FieldWrite>)
    requires SlotOk(slot)
  {
    forall index: nat, j :: index < ArrayType(slot).arraySize && 0 <= j < |writes| ==> AvoidsCount(slot, index, writes[j])
  }

  /** Writing outside the count's bytes leaves the count's bytes as they were. */
  lemma ReadOutside(memory: seq<Byte>, data: seq<Byte>, offset: nat, countOffset: nat)
    requires offset + |data| <= |memory| && countOffset + 4 <= |memory|
    requires offset + |data| <= countOffset || countOffset + 4 <= offset
    ensures Buffers.Read(Buffers.Written(memory, data, offset), 4, countOffset) == Buffers.Read(memory, 4, countOffset)
  {
    forall i | countOffset <= i < countOffset + 4 {
      Buffers.WrittenElsewhere(memory, data, offset, i);
    }
  }

  /** Setting an entity's fields keeps the count, when none of them overlaps it. */
  lemma {:induction false} SetFieldsKeepCount(memory: seq<Byte>, slot: Slot, index: nat, writes: seq<FieldWrite>)
    requires SlotOk(slot) && slot.countOffset + 4 <= |memory|
    requires index < ArrayType(slot).arraySize && EntityAvoidsCount(slot, writes)
    requires SetFields(memory, slot, index, writes).Ok?
    ensures Buffers.Read(SetFields(memory, slot, index, writes).value, 4, slot.countOffset) == Buffers.Read(memory, 4, slot.countOffset)
    decreases |writes|
  {
    if writes != [] {
      var front := writes[..|writes| - 1];
      assert EntityAvoidsCount(slot, front) by {
        forall i: nat, j | i < ArrayType(slot).arraySize && 0 <= j < |front|
          ensures AvoidsCount(slot, i, front[j])
        {
          assert front[j] == writes[j];
        }
      }
      SetFieldsKeepCount(memory, slot, index, front);
      var m := SetFields(memory, slot, index, front).value;
      var w := writes[|writes| - 1];
      assert AvoidsCount(slot, index, writes[|writes| - 1]);
      if w.name in ArrayType(slot).fields {
        var offset := FieldOffset(slot, index, w.name).value;
        ReadOutside(m, w.data, offset, slot.countOffset);
      }
    }
  }

  /**
   * Appending entities to a buffer whose count is `count` leaves `count + n` there, and
   * succeeds only if all of them fit the array: index k goes to the k-th entity. (With
   * field writes clear of the count, and an array below 2^31 entries so that the count
   * cannot wrap.)
   */
  lemma {:induction false} AddEntitiesCount(memory: seq<Byte>, slot: Slot, color: seq<Byte>, entities: seq<LightEntity>, count: nat)
    requires SlotOk(slot) && slot.countOffset + 4 <= |memory| && ArrayType(slot).arraySize < Two31
    requires DecodeInt32(Buffers.Read(memory, 4, slot.countOffset)) == count <= ArrayType(slot).arraySize
    requires forall k :: 0 <= k < |entities| ==> EntityAvoidsCount(slot, EntityWrites(color, entities[k]))
    ensures AddEntities(memory, slot, color, entities).Ok? ==>
      count + |entities| <= ArrayType(slot).arraySize &&
      DecodeInt32(Buffers.Read(AddEntities(memory, slot, color, entities).value, 4, slot.countOffset)) == count + |entities|
    decreases |entities|
  {
    if entities != [] && AddEntities(memory, slot, color, entities).Ok? {
      var front := entities[..|entities| - 1];
      AddEntitiesCount(memory, slot, color, front, count);
      var m := AddEntities(memory, slot, color, front).value;
      var current := DecodeInt32(Buffers.Read(m, 4, slot.countOffset));
      assert current == count + |front|;
      var last := entities[|entities| - 1];
      assert AddEntities(memory, slot, color, entities) == AddEntity(m, slot, color, last);
      assert SizeT(current) == current < ArrayType(slot).arraySize;
      assert Increment(current) == current + 1;
      var bumped := Buffers.Written(m, EncodeInt32(Increment(current)), slot.countOffset);
      Buffers.ReadWritten(m, EncodeInt32(Increment(current)), slot.countOffset);
      DecodeEncode(Increment(current));
      assert EntityAvoidsCount(slot, EntityWrites(color, entities[|entities| - 1]));
      SetFieldsKeepCount(bumped, slot, SizeT(current), EntityWrites(color, last));
      assert AddEntity(m, slot, color, last) == SetFields(bumped, slot, SizeT(current), EntityWrites(color, last));
    }
  }

  /**
   * An array element without a "color" field makes every entity fail: "position" is
   * skipped or written, and the required "color" is then reported missing (or an earlier
   * step fails first). With no "position" field either, and room in the array, the error
   * is exactly the missing-"color" one.
   */
  lemma MissingColorFailsEntity(memory: seq<Byte>, slot: Slot, color: seq<Byte>, e: LightEntity)
    requires SlotOk(slot) && ColorField !in ArrayType(slot).fields
    ensures AddEntity(memory, slot, color, e).Err?
    ensures PositionField !in ArrayType(slot).fields && slot.countOffset + 4 <= |memory| &&
            SizeT(DecodeInt32(Buffers.Read(memory, 4, slot.countOffset))) < ArrayType(slot).arraySize ==>
      AddEntity(memory, slot, color, e) == Err("field \"color\" does not exist!")
  {
    if slot.countOffset + 4 <= |memory| {
      var count := DecodeInt32(Buffers.Read(memory, 4, slot.countOffset));
      var index := SizeT(count);
      if index < ArrayType(slot).arraySize {
        var bumped := Buffers.Written(memory, EncodeInt32(Increment(count)), slot.countOffset);
        var writes := EntityWrites(color, e);
        assert writes[..2][..1] == writes[..1] && writes[..1][..0] == [];
        assert writes[..2][1] == FieldWrite(ColorField, color, false);
        if PositionField !in ArrayType(slot).fields {
          assert SetFields(bumped, slot, index, writes[..1]) == Ok(bumped);
          assert "field \"" + ColorField + "\" does not exist!" == "field \"color\" does not exist!";
        }
        assert SetFields(bumped, slot, index, writes[..2]).Err?;
        SetFieldsFailFast(bumped, slot, index, writes, 2);
      }
    }
  }

  /** So any non-empty list of entities fails on such a buffer. */
  lemma MissingColorFailsEntities(memory: seq<Byte>, slot: Slot, color: seq<Byte>, entities: seq<LightEntity>)
    requires SlotOk(slot) && ColorField !in ArrayType(slot).fields && |entities| > 0
    ensures AddEntities(memory, slot, color, entities).Err?
  {
    var front := entities[..|entities| - 1];
    if AddEntities(memory, slot, color, front).Ok? {
      MissingColorFailsEntity(AddEntities(memory, slot, color, front).value, slot, color, entities[|entities| - 1]);
    }
  }

  /** The buffer of one shader: the uniform buffer and where "light_data" sits. */
  datatype LightBuffer = LightBuffer(buffer: Buffers.UniformBuffer, setIndex: nat, binding: nat)

  /** The resource at (set, binding) exists in the reflection data. */
  predicate HasResource(data: Shader.ReflectionData, setIndex: nat, binding: nat)
  {
    setIndex in data.resources && binding in data.resources[setIndex]
  }

  /**
   * One buffer's part of `update_buffers`: the buffer's type must have the count and array
   * fields and the array field must be an array; then the entities are appended.
   */
  function BufferUpdate(memory: seq<Byte>, data: Shader.ReflectionData, setIndex: nat, binding: nat, t: LightType,
                        shaderName: string, color: seq<Byte>, entities: seq<LightEntity>): (r: Result<seq<Byte>>)
    requires Shader.WellFormed(data) && HasResource(data, setIndex, binding)
    ensures r.Ok? ==> |r.value| == |memory|
  {
    var typeIndex := data.resources[setIndex][binding].typeIndex;
    var fields := data.types[typeIndex].fields;
    if CountField(t) !in fields then Err("shader " + shaderName + " does not have a " + CountField(t) + " field!")
    else if ArrayField(t) !in fields then Err("shader " + shaderName + " does not have a " + ArrayField(t) + " field!")
    else if data.types[fields[ArrayField(t)].typeIndex].arrayStride == 0 then Err(ArrayField(t) + " is not an array!")
    else AddEntities(memory, Slot(data.types, typeIndex, ArrayField(t), fields[CountField(t)].offset), color, entities)
  }

  /** The light type's array in the buffer at (set, binding) has an element type without a "color" field. */
  predicate ColorMissing(data: Shader.ReflectionData, setIndex: nat, binding: nat, t: LightType)
    requires Shader.WellFormed(data) && HasResource(data, setIndex, binding)
  {
    var fields := data.types[data.resources[setIndex][binding].typeIndex].fields;
    ArrayField(t) in fields && ColorField !in data.types[fields[ArrayField(t)].typeIndex].fields
  }

  /** A light with entities can never update a buffer whose array element lacks "color". */
  lemma MissingColorFailsUpdate(memory: seq<Byte>, data: Shader.ReflectionData, setIndex: nat, binding: nat, t: LightType,
                                shaderName: string, color: seq<Byte>, entities: seq<LightEntity>)
    requires Shader.WellFormed(data) && HasResource(data, setIndex, binding)
    requires ColorMissing(data, setIndex, binding, t) && |entities| > 0
    ensures BufferUpdate(memory, data, setIndex, binding, t, shaderName, color, entities).Err?
  {
    var typeIndex := data.resources[setIndex][binding].typeIndex;
    var fields := data.types[typeIndex].fields;
    if CountField(t) in fields && data.types[fields[ArrayField(t)].typeIndex].arrayStride != 0 {
      MissingColorFailsEntities(memory, Slot(data.types, typeIndex, ArrayField(t), fields[CountField(t)].offset), color, entities);
    }
  }

  /** The corrected `set` callback on a uniform buffer's memory. */
  method WriteField(buffer: Buffers.UniformBuffer, slot: Slot, index: nat, w: FieldWrite) returns (r: Result<()>)
    requires SlotOk(slot)
    modifies buffer.memory
    ensures r.Ok? <==> SetField(old(buffer.memory[..]), slot, index, w).Ok?
    ensures r.Ok? ==> buffer.memory[..] == SetField(old(buffer.memory[..]), slot, index, w).value
    ensures r.Err? ==> r.message == SetField(old(buffer.memory[..]), slot, index, w).message
  {
    if w.name !in ArrayType(slot).fields {
      if w.optional {
        return Ok(());
      }
      return Err("field \"" + w.name + "\" does not exist!");
    }
    var offset := FieldOffset(slot, index, w.name);
    if offset.Err? {
      return Err(offset.message);
    }
    if offset.value < 0 {
      return Err(OutOfLimits);
    }
    var written := buffer.SetData(w.data, offset.value);
    if written.Err? {
      return Err(OutOfLimits);
    }
    r := Ok(());
  }

  /** One entity: the count is read, checked and bumped through the buffer, then its fields are set. */
  method AppendEntity(buffer: Buffers.UniformBuffer, slot: Slot, color: seq<Byte>, e: LightEntity) returns (r: Result<()>)
    requires SlotOk(slot)
    modifies buffer.memory
    ensures r.Ok? <==> AddEntity(old(buffer.memory[..]), slot, color, e).Ok?
    ensures r.Ok? ==> buffer.memory[..] == AddEntity(old(buffer.memory[..]), slot, color, e).value
    ensures r.Err? ==> r.message == AddEntity(old(buffer.memory[..]), slot, color, e).message
  {
    var writes := EntityWrites(color, e);
    var bytes := buffer.GetData(4, slot.countOffset);
    if bytes.Err? {
      return Err(OutOfLimits);
    }
    var count := DecodeInt32(bytes.value);
    var index := SizeT(count);
    if index >= ArrayType(slot).arraySize {
      return Err("cannot have more than " + Strings.Decimal(ArrayType(slot).arraySize) + " of this light type!");
    }
    var stored := buffer.SetData(EncodeInt32(Increment(count)), slot.countOffset);
    ghost var bumped := buffer.memory[..];
    assert SetFields(bumped, slot, index, writes[..0]) == Ok(bumped);
    for j := 0 to |writes|
      invariant SetFields(bumped, slot, index, writes[..j]) == Ok(buffer.memory[..])
    {
      assert writes[..j + 1][..j] == writes[..j];
      var field := WriteField(buffer, slot, index, writes[j]);
      if field.Err? {
        SetFieldsFailFast(bumped, slot, index, writes, j + 1);
        return Err(field.message);
      }
    }
    assert writes[..|writes|] == writes;
    r := Ok(());
  }

  /** One buffer's part of `update_buffers`, through the buffer's own reads and writes. */
  method UpdateBuffer(buffer: Buffers.UniformBuffer, data: Shader.ReflectionData, setIndex: nat, binding: nat, t: LightType,
                      shaderName: string, color: seq<Byte>, entities: seq<LightEntity>) returns (r: Result<()>)
    requires Shader.WellFormed(data) && HasResource(data, setIndex, binding)
    modifies buffer.memory
    ensures r.Ok? <==> BufferUpdate(old(buffer.memory[..]), data, setIndex, binding, t, shaderName, color, entities).Ok?
    ensures r.Ok? ==> buffer.memory[..] == BufferUpdate(old(buffer.memory[..]), data, setIndex, binding, t, shaderName, color, entities).value
    ensures r.Err? ==> r.message == BufferUpdate(old(buffer.memory[..]), data, setIndex, binding, t, shaderName, color, entities).message
  {
    var typeIndex := data.resources[setIndex][binding].typeIndex;
    var fields := data.types[typeIndex].fields;
    if CountField(t) !in fields {
      return Err("shader " + shaderName + " does not have a " + CountField(t) + " field!");
    }
    if ArrayField(t) !in fields {
      return Err("shader " + shaderName + " does not have a " + ArrayField(t) + " field!");
    }
    if data.types[fields[ArrayField(t)].typeIndex].arrayStride == 0 {
      return Err(ArrayField(t) + " is not an array!");
    }
    PlainFieldNames(t);
    Shader.FindOffsetField(data.types, typeIndex, CountField(t));
    var countOffset := Shader.FindOffset(data.types, typeIndex, CountField(t));
    var slot := Slot(data.types, typeIndex, ArrayField(t), countOffset.value as nat);
    ghost var before := buffer.memory[..];
    for k := 0 to |entities|
      invariant AddEntities(before, slot, color, entities[..k]) == Ok(buffer.memory[..])
    {
      assert entities[..k + 1][..k] == entities[..k];
      var added := AppendEntity(buffer, slot, color, entities[k]);
      if added.Err? {
        AddEntitiesFailFast(before, slot, color, entities, k + 1);
        return Err(added.message);
      }
    }
    assert entities[..|entities|] == entities;
    r := Ok(());
  }

  /** The global `light_data`: the light buffer of each shader name. */
  class LightData {
    var buffers: map<string, LightBuffer>

    constructor ()
      ensures buffers == map[]
    {
      buffers := map[];
    }

    /** No two shaders share a buffer's memory. */
    predicate Valid()
      reads this
    {
      Distinct(buffers)
    }

    /** The memories of all buffers. */
    function Memories(): set<array<Byte>>
      reads this
    {
      set n | n in buffers :: buffers[n].buffer.memory
    }

    /** `get_buffer`: the shader's light buffer, or null for a shader without one. */
    function GetBuffer(shaderName: string): (buffer: Buffers.UniformBuffer?)
      reads this
      ensures shaderName !in buffers <==> buffer == null
      ensures shaderName in buffers ==> buffer == buffers[shaderName].buffer
    {
      if shaderName in buffers then buffers[shaderName].buffer else null
    }

    /** `shutdown`: the table is emptied. */
    method Shutdown()
      modifies this
      ensures buffers == map[]
    {
      buffers := map[];
    }

    /** `reset_buffers`: every byte of every light buffer becomes 0. */
    method ResetBuffers()
      modifies Memories()
      ensures forall n, i :: n in buffers && 0 <= i < buffers[n].buffer.Size() ==> buffers[n].buffer.memory[i] == 0
    {
      var remaining := buffers.Keys;
      while remaining != {}
        invariant remaining <= buffers.Keys
        invariant forall n, i :: n in buffers.Keys - remaining && 0 <= i < buffers[n].buffer.Size() ==> buffers[n].buffer.memory[i] == 0
        decreases remaining
      {
        var n :| n in remaining;
        buffers[n].buffer.Zero();
        remaining := remaining - {n};
      }
    }

    /** The table `now` keeps every entry of `start`, and every entry it adds is a buffer `init` made. */
    ghost predicate Extends(library: Shader.ShaderLibrary, start: map<string, LightBuffer>, now: map<string, LightBuffer>)
      reads library
    {
      (forall n :: n in start ==> n in now && now[n] == start[n]) &&
      forall n :: n in now && n !in start ==> Allocated(library, n, now[n])
    }

    lemma ExtendsTransitive(library: Shader.ShaderLibrary, a: map<string, LightBuffer>, b: map<string, LightBuffer>, c: map<string, LightBuffer>)
      requires Extends(library, a, b) && Extends(library, b, c)
      ensures Extends(library, a, c)
    {
    }

    /**
     * One shader of `init`: a shader with a "light_data" resource gets a uniform buffer for
     * the first one, unless it already has an entry; `used` says whether a buffer was made.
     */
    method AddShader(library: Shader.ShaderLibrary, name: string, id: nat) returns (r: Result<bool>)
      requires name in library.shaders && Shader.WellFormed(library.shaders[name].reflection)
      modifies this
      ensures r.Ok? <==> LightDataBufferable(library.shaders[name].reflection)
      ensures r.Err? ==> LightDataFailure(library.shaders[name].reflection, r.message)
      ensures r.Ok? ==> (HasLightData(library.shaders[name].reflection) ==> name in buffers)
      ensures r.Ok? && r.value ==> HasLightData(library.shaders[name].reflection)
      ensures name in old(buffers) || name !in buffers ==> buffers == old(buffers)
      ensures name !in old(buffers) && name in buffers ==>
        buffers == old(buffers)[name := buffers[name]] &&
        fresh(buffers[name].buffer) && fresh(buffers[name].buffer.memory) && Allocated(library, name, buffers[name])
      ensures Extends(library, old(buffers), buffers)
      ensures old(Valid()) ==> Valid()
    {
      var reflection := library.shaders[name].reflection;
      var found, setIndex, binding := Shader.FindResource(reflection.resources, LightDataName, 0, 0);
      if !found {
        return Ok(false);
      }
      var buffer := Buffers.FromShaderData(id, reflection, setIndex, binding);
      if buffer.Err? {
        return Err(buffer.message);
      }
      if name !in buffers {
        var entry := LightBuffer(buffer.value, setIndex, binding);
        assert Allocated(library, name, entry);
        buffers := buffers[name := entry];
      }
      r := Ok(true);
    }

    /**
     * `init`: every shader of the library whose reflection has a "light_data" resource gets
     * a uniform buffer for the first such resource; an existing entry is not replaced.
     */
    method Init(library: Shader.ShaderLibrary, firstId: nat) returns (r: Result<()>)
      requires forall n :: n in library.shaders ==> Shader.WellFormed(library.shaders[n].reflection)
      modifies this
      ensures Extends(library, old(buffers), buffers)
      ensures r.Ok? <==> forall n :: n in library.shaders ==> LightDataBufferable(library.shaders[n].reflection)
      ensures r.Err? ==> exists n :: n in library.shaders && LightDataFailure(library.shaders[n].reflection, r.message)
      ensures r.Ok? ==> forall n :: n in library.shaders && HasLightData(library.shaders[n].reflection) ==> n in buffers
      ensures old(Valid()) ==> Valid()
    {
      var names := library.shaders.Keys;
      var id := firstId;
      while names != {}
        invariant names <= library.shaders.Keys
        invariant Extends(library, old(buffers), buffers)
        invariant forall n :: n in library.shaders.Keys - names && HasLightData(library.shaders[n].reflection) ==> n in buffers
        invariant forall n :: n in library.shaders.Keys - names ==> LightDataBufferable(library.shaders[n].reflection)
        invariant old(Valid()) ==> Valid()
        decreases names
      {
        var name :| name in names;
        ghost var start := buffers;
        var added := AddShader(library, name, id);
        ExtendsTransitive(library, old(buffers), start, buffers);
        if added.Err? {
          return Err(added.message);
        }
        if added.value {
          id := id + 1;
        }
        names := names - {name};
      }
      r := Ok(());
    }

    /**
     * `update_buffers` for a light of type `t` and colour `color` with the given entities:
     * each shader's buffer gets the entities appended, in the shaders' (unspecified) order,
     * and the first failure ends the update. A buffer whose array element lacks "color"
     * makes any non-empty update fail.
     */
    method UpdateBuffers(library: Shader.ShaderLibrary, t: LightType, color: seq<Byte>, entities: seq<LightEntity>) returns (r: Result<()>)
      requires Valid() && Ready(library.shaders, buffers)
      modifies Memories()
      ensures r.Ok? ==> forall n :: n in buffers ==>
        Outcome(library.shaders, buffers, t, color, entities, n, old(buffers[n].buffer.memory[..])) == Ok(buffers[n].buffer.memory[..])
      ensures r.Err? ==> exists n :: (n in buffers &&
        Outcome(library.shaders, buffers, t, color, entities, n, old(buffers[n].buffer.memory[..])) == Err(r.message))
      ensures |entities| > 0 && SomeColorMissing(library.shaders, buffers, t) ==> r.Err?
    {
      r := UpdateEntries(library.shaders, buffers, t, color, entities, Memories());
      if |entities| > 0 && SomeColorMissing(library.shaders, buffers, t) {
        var n :| n in buffers && ColorMissing(library.shaders[n].reflection, buffers[n].setIndex, buffers[n].binding, t);
        MissingColorFailsUpdate(old(buffers[n].buffer.memory[..]), library.shaders[n].reflection, buffers[n].setIndex,
          buffers[n].binding, t, n, color, entities);
      }
    }
  }

  /** The loop of `update_buffers` over the shaders' buffers `entries`. */
  method UpdateEntries(shaders: map<string, Shader.ShaderObject>, entries: map<string, LightBuffer>, t: LightType,
                       color: seq<Byte>, entities: seq<LightEntity>, ghost memories: set<array<Byte>>) returns (r: Result<()>)
    requires Distinct(entries) && Ready(shaders, entries)
    requires forall n :: n in entries ==> entries[n].buffer.memory in memories
    modifies memories
    ensures r.Ok? ==> forall n :: n in entries ==>
      Outcome(shaders, entries, t, color, entities, n, old(entries[n].buffer.memory[..])) == Ok(entries[n].buffer.memory[..])
    ensures r.Err? ==> exists n :: (n in entries &&
      Outcome(shaders, entries, t, color, entities, n, old(entries[n].buffer.memory[..])) == Err(r.message))
  {
    ghost var start := map n | n in entries :: entries[n].buffer.memory[..];
    ghost var expected := map n | n in entries :: Outcome(shaders, entries, t, color, entities, n, start[n]);
    var remaining := entries.Keys;
    while remaining != {}
      invariant Progress(entries, start, expected, remaining)
      decreases remaining
    {
      var n :| n in remaining;
      var updated := UpdateEntry(shaders, entries, t, color, entities, n, start, expected, remaining);
      if updated.Err? {
        return Err(updated.message);
      }
      remaining := remaining - {n};
    }
    r := Ok(());
  }

  /**
   * The buffers of the shaders outside `remaining` hold what `update_buffers` makes of
   * their bytes `start`, and those in `remaining` still hold `start`.
   */
  ghost predicate Progress(entries: map<string, LightBuffer>, start: map<string, seq<Byte>>,
                           expected: map<string, Result<seq<Byte>>>, remaining: set<string>)
    reads set n | n in entries :: entries[n].buffer.memory
  {
    remaining <= entries.Keys && entries.Keys <= start.Keys && entries.Keys <= expected.Keys &&
    (forall n :: n in remaining ==> entries[n].buffer.memory[..] == start[n]) &&
    (forall n :: n in entries && n !in remaining ==> expected[n] == Ok(entries[n].buffer.memory[..]))
  }

  /** One shader's buffer through `update_buffers`; the other buffers keep their bytes. */
  method UpdateEntry(shaders: map<string, Shader.ShaderObject>, entries: map<string, LightBuffer>, t: LightType,
                     color: seq<Byte>, entities: seq<LightEntity>, n: string, ghost start: map<string, seq<Byte>>,
                     ghost expected: map<string, Result<seq<Byte>>>, ghost remaining: set<string>) returns (r: Result<()>)
    requires Distinct(entries) && Ready(shaders, entries) && n in remaining
    requires Progress(entries, start, expected, remaining)
    requires expected[n] == Outcome(shaders, entries, t, color, entities, n, start[n])
    modifies entries[n].buffer.memory
    ensures r.Ok? ==> Progress(entries, start, expected, remaining - {n})
    ensures r.Err? ==> expected[n] == Err(r.message)
  {
    var entry := entries[n];
    r := UpdateBuffer(entry.buffer, shaders[n].reflection, entry.setIndex, entry.binding, t, n, color, entities);
    forall m | m in entries && m != n
      ensures entries[m].buffer.memory[..] == old(entries[m].buffer.memory[..])
    {
      assert entries[m].buffer.memory != entry.buffer.memory;
    }
  }

  /** No two shaders share a buffer's memory. */
  predicate Distinct(entries: map<string, LightBuffer>)
  {
    forall a, b :: a in entries && b in entries && a != b ==> entries[a].buffer.memory != entries[b].buffer.memory
  }

  /** Every buffer belongs to a shader of the library whose reflection has the buffer's resource. */
  predicate Ready(shaders: map<string, Shader.ShaderObject>, entries: map<string, LightBuffer>)
  {
    forall n :: n in entries ==> (n in shaders && Shader.WellFormed(shaders[n].reflection) &&
      HasResource(shaders[n].reflection, entries[n].setIndex, entries[n].binding))
  }

  /** Some shader's buffer has an array element without "color". */
  ghost predicate SomeColorMissing(shaders: map<string, Shader.ShaderObject>, entries: map<string, LightBuffer>, t: LightType)
    requires Ready(shaders, entries)
  {
    exists n :: n in entries && ColorMissing(shaders[n].reflection, entries[n].setIndex, entries[n].binding, t)
  }

  /** What `update_buffers` makes of shader `n`'s buffer when it holds the bytes `memory`. */
  ghost function Outcome(shaders: map<string, Shader.ShaderObject>, entries: map<string, LightBuffer>, t: LightType,
                         color: seq<Byte>, entities: seq<LightEntity>, n: string, memory: seq<Byte>): (r: Result<seq<Byte>>)
    requires n in entries && Ready(shaders, entries)
  {
    BufferUpdate(memory, shaders[n].reflection, entries[n].setIndex, entries[n].binding, t, n, color, entities)
  }

  /** A buffer `init` made for shader `n`: at its first "light_data" resource, as large as that resource's type. */
  ghost predicate Allocated(library: Shader.ShaderLibrary, n: string, entry: LightBuffer)
    reads library
  {
    n in library.shaders && FirstLightData(library.shaders[n].reflection, entry.setIndex, entry.binding) &&
    Shader.WellFormed(library.shaders[n].reflection) &&
    Buffers.UniformBufferSize(library.shaders[n].reflection, entry.setIndex, entry.binding).Ok? &&
    entry.buffer.Size() == Buffers.UniformBufferSize(library.shaders[n].reflection, entry.setIndex, entry.binding).value
  }

  /** The resource name `init` looks for. */
  const LightDataName: string := "light_data"

  /** Some resource of the shader is named "light_data". */
  ghost predicate HasLightData(data: Shader.ReflectionData)
  {
    exists s, b :: Shader.ResourceAt(data.resources, s, b, LightDataName)
  }

  /** The shader's first "light_data" resource, when it has one, is a uniform buffer, so `from_shader_data` can make a buffer for it. */
  ghost predicate LightDataBufferable(data: Shader.ReflectionData)
    requires Shader.WellFormed(data)
  {
    forall s, b :: FirstLightData(data, s, b) ==> Buffers.UniformBufferSize(data, s, b).Ok?
  }

  /** `message` is the error `from_shader_data` gives for the shader's first "light_data" resource. */
  ghost predicate LightDataFailure(data: Shader.ReflectionData, message: string)
    requires Shader.WellFormed(data)
  {
    exists s, b :: FirstLightData(data, s, b) && Buffers.UniformBufferSize(data, s, b).Err? &&
      message == Buffers.UniformBufferSize(data, s, b).message
  }

  /** (set, binding) is the first "light_data" resource in ascending order. */
  ghost predicate FirstLightData(data: Shader.ReflectionData, setIndex: nat, binding: nat)
  {
    Shader.ResourceAt(data.resources, setIndex, binding, LightDataName) &&
    forall s, b :: Shader.ResourceAt(data.resources, s, b, LightDataName) ==> setIndex < s || (setIndex == s && binding <= b)
  }
}
