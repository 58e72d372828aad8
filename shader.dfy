/**
 * Shader source handling and reflection queries of src/shader.cpp: the stage and
 * language tables, the `#stage` splitter in `shader::compile`, the field-path parser
 * `shader_type::find_offset`, `shader_reflection_data::find_resource` and the
 * global `shader_library` table. Compilation (shaderc) and reflection
 * (SPIRV-Cross) are foreign: their results appear here as `ReflectionData` values.
 */
module Shader {
  import opened Wrappers
  import opened Strings
  import Paths
  import Util
  import Renderer

  datatype Stage = Vertex | Fragment | Geometry | Compute
  datatype Language = Glsl | Hlsl

  // ---------------------------------------------------------------- tables

  /** `shader::get_stage_flags`: the VkShaderStageFlagBits value of each stage. */
  function StageFlags(stage: Stage): (bit: bv32)
    ensures bit != 0 && bit & (bit - 1) == 0
  {
    match stage
    case Vertex => 0x1
    case Fragment => 0x10
    case Geometry => 0x8
    case Compute => 0x20
  }

  /** The four stages get four different single-bit flags. */
  lemma StageFlagsDistinctBits(a: Stage, b: Stage)
    ensures StageFlags(a) != 0 && StageFlags(a) & (StageFlags(a) - 1) == 0
    ensures a != b ==> StageFlags(a) & StageFlags(b) == 0
  {
  }

  /** `determine_language`: the language of a source file, by extension. */
  function DetermineLanguage(path: string): (r: Result<Language>)
    ensures r == Ok(Glsl) <==> Paths.Extension(path) == ".glsl"
    ensures r == Ok(Hlsl) <==> Paths.Extension(path) == ".hlsl"
    ensures r.Err? <==> Paths.Extension(path) !in {".glsl", ".hlsl"}
  {
    var ext := Paths.Extension(path);
    if ext == ".glsl" then Ok(Glsl)
    else if ext == ".hlsl" then Ok(Hlsl)
    else Err("invalid shader extension: " + ext)
  }

  /** `stage_map`: the stage names accepted after "#stage "; "pixel" is a second name for fragment. */
  function StageNamed(name: string): (r: Option<Stage>)
    ensures r.Some? <==> name in {"vertex", "fragment", "pixel", "geometry", "compute"}
  {
    if name == "vertex" then Some(Vertex)
    else if name == "fragment" || name == "pixel" then Some(Fragment)
    else if name == "geometry" then Some(Geometry)
    else if name == "compute" then Some(Compute)
    else None
  }

  /** The canonical name of each stage. */
  function StageName(stage: Stage): string
  {
    match stage
    case Vertex => "vertex"
    case Fragment => "fragment"
    case Geometry => "geometry"
    case Compute => "compute"
  }

  /** Every stage is found under its own name, and "pixel" names the fragment stage. */
  lemma StageNamesRoundTrip(stage: Stage)
    ensures StageNamed(StageName(stage)) == Some(stage)
    ensures StageNamed("pixel") == Some(Fragment)
  {
  }

  // ---------------------------------------------------------------- #stage splitting

  const StageSwitch: string := "#stage "

  /** `line.substr(0, 7) == "#stage "`. */
  predicate IsDirective(line: string)
  {
    |line| >= |StageSwitch| && line[..|StageSwitch|] == StageSwitch
  }

  /** The text after "#stage " on a directive line. */
  function DirectiveArgument(line: string): string
    requires IsDirective(line)
  {
    line[|StageSwitch|..]
  }

  /** `std::getline` over the whole file: the text between newlines; a final newline ends the last line. */
  function Lines(text: string): (r: seq<string>)
    ensures forall i :: 0 <= i < |r| ==> '\n' !in r[i]
    decreases |text|
  {
    if text == [] then []
    else
      var k := IndexOf(text, '\n');
      if k == |text| then [text] else [text[..k]] + Lines(text[k + 1..])
  }

  /** Every line followed by a newline, concatenated: the text `getline` reads the lines from. */
  function JoinLines(lines: seq<string>): string
  {
    if lines == [] then "" else lines[0] + "\n" + JoinLines(lines[1..])
  }

  /** `getline` loses nothing: rejoining the lines gives the file back, with a final newline added if it had none. */
  lemma {:induction false} LinesRejoin(text: string)
    ensures JoinLines(Lines(text)) == if text == [] || text[|text| - 1] == '\n' then text else text + "\n"
    decreases |text|
  {
    if text != [] {
      var k := IndexOf(text, '\n');
      if k < |text| {
        var line, rest := text[..k], text[k + 1..];
        LinesRejoin(rest);
        LinesFirst(text);
        JoinCons(line, Lines(rest));
        RejoinAfterLine(text, line, rest, JoinLines(Lines(rest)));
      } else {
        LinesSingle(text);
      }
    }
  }

  /** A text with a newline: its first line, then the lines of what follows the newline. */
  lemma LinesFirst(text: string)
    requires IndexOf(text, '\n') < |text|
    ensures var k := IndexOf(text, '\n');
      Lines(text) == [text[..k]] + Lines(text[k + 1..]) && text == text[..k] + "\n" + text[k + 1..]
  {
    var k := IndexOf(text, '\n');
    SplitAt(text, k);
  }

  /** A text is the part before position `k`, the character there, and the part after. */
  lemma SplitAt(text: string, k: nat)
    requires k < |text|
    ensures text == text[..k] + [text[k]] + text[k + 1..]
  {
  }

  /** A non-empty text without a newline is one line, rejoined with a newline added. */
  lemma LinesSingle(text: string)
    requires text != [] && IndexOf(text, '\n') == |text|
    ensures JoinLines(Lines(text)) == text + "\n" && text[|text| - 1] != '\n'
  {
    assert Lines(text) == [text];
    JoinCons(text, []);
    assert [text] + [] == [text];
    assert text + "\n" + "" == text + "\n";
  }

  /** A line and a newline in front of a rest that rejoins correctly rejoin the whole text correctly. */
  lemma RejoinAfterLine(text: string, line: string, rest: string, joinedRest: string)
    requires text == line + "\n" + rest
    requires joinedRest == if rest == [] || rest[|rest| - 1] == '\n' then rest else rest + "\n"
    ensures line + "\n" + joinedRest == if text == [] || text[|text| - 1] == '\n' then text else text + "\n"
  {
    if rest != [] {
      assert text[|text| - 1] == rest[|rest| - 1];
      if rest[|rest| - 1] != '\n' {
        assert line + "\n" + (rest + "\n") == text + "\n";
      }
    }
  }

  /** Joining a first line and the rest: the line, a newline, then the rest joined. */
  lemma JoinCons(line: string, lines: seq<string>)
    ensures JoinLines([line] + lines) == line + "\n" + JoinLines(lines)
  {
    assert ([line] + lines)[1..] == lines;
  }

  /** Splitting state after some lines: the current stage, if any, and the text per stage. */
  datatype SplitState = SplitState(current: Option<Stage>, sources: map<Stage, string>)

  /** One round of the `getline` loop of `shader::compile` (src/shader.cpp:126-141). */
  function SplitLine(st: SplitState, line: string): Result<SplitState>
  {
    if IsDirective(line) then
      match StageNamed(DirectiveArgument(line))
      case None => Err("invalid shader stage: " + DirectiveArgument(line))
      case Some(stage) => Ok(st.(current := Some(stage)))
    else
      var stage := if st.current.Some? then st.current.value else Compute;
      var before := if stage in st.sources then st.sources[stage] else "";
      Ok(SplitState(Some(stage), st.sources[stage := before + line + "\n"]))
  }

  /** The splitting loop over the first lines of a file, as a recursive definition. */
  function SplitLines(lines: seq<string>): Result<SplitState>
  {
    if lines == [] then Ok(SplitState(None, map[]))
    else match SplitLines(lines[..|lines| - 1])
      case Err(m) => Err(m)
      case Ok(st) => SplitLine(st, lines[|lines| - 1])
  }

  /** The stage a non-directive line at the end of `before` is written to: the last directive's, else compute. */
  function Governing(before: seq<string>): Stage
  {
    if before == [] then Compute
    else
      var last := before[|before| - 1];
      if IsDirective(last) && StageNamed(DirectiveArgument(last)).Some? then StageNamed(DirectiveArgument(last)).value
      else Governing(before[..|before| - 1])
  }

  /** The text a stage should receive: each non-directive line it governs, followed by '\n', in file order. */
  function Collect(lines: seq<string>, stage: Stage): string
  {
    if lines == [] then ""
    else
      var prefix := lines[..|lines| - 1];
      var last := lines[|lines| - 1];
      Collect(prefix, stage) + if !IsDirective(last) && Governing(prefix) == stage then last + "\n" else ""
  }

  /** Some line of `lines` is an ordinary line written to `stage`. */
  predicate Feeds(lines: seq<string>, stage: Stage)
  {
    exists i :: 0 <= i < |lines| && !IsDirective(lines[i]) && Governing(lines[..i]) == stage
  }

  /** Every "#stage" line names a known stage. */
  predicate DirectivesValid(lines: seq<string>)
  {
    forall i :: 0 <= i < |lines| && IsDirective(lines[i]) ==> StageNamed(DirectiveArgument(lines[i])).Some?
  }

  /**
   * `st` is what splitting `lines` should leave: the stage of the last directive (compute
   * before any), a source for a stage iff some ordinary line is written to it, and that
   * source is the `Collect`ed text.
   */
  predicate Describes(lines: seq<string>, st: SplitState)
  {
    (st.current == if lines == [] then None else Some(Governing(lines))) &&
    (forall stage :: (stage in st.sources <==> Feeds(lines, stage))) &&
    (forall stage :: stage in st.sources ==> st.sources[stage] == Collect(lines, stage))
  }

  /**
   * The splitter fails exactly when some directive names an unknown stage; otherwise its
   * state is the one `Describes` gives: directive lines are never copied, lines keep their
   * order, and lines before the first directive go to compute.
   */
  lemma {:induction false} SplitLinesMeaning(lines: seq<string>)
    ensures SplitLines(lines).Ok? <==> DirectivesValid(lines)
    ensures SplitLines(lines).Ok? ==> Describes(lines, SplitLines(lines).value)
  {
    if lines != [] {
      var prefix := lines[..|lines| - 1];
      var last := lines[|lines| - 1];
      SplitLinesMeaning(prefix);
      Util.LastSplit(lines);
      DirectivesValidExtend(prefix, last);
      if SplitLines(prefix).Ok? {
        var st0 := SplitLines(prefix).value;
        assert SplitLines(lines) == SplitLine(st0, last);
        if IsDirective(last) {
          if StageNamed(DirectiveArgument(last)).Some? {
            DirectiveStep(prefix, last, st0);
          }
        } else {
          OrdinaryStep(prefix, last, st0);
        }
      }
    }
  }

  /** One more line keeps the directives valid iff it is not a directive naming an unknown stage. */
  lemma DirectivesValidExtend(prefix: seq<string>, last: string)
    ensures DirectivesValid(prefix + [last]) <==>
      DirectivesValid(prefix) && (IsDirective(last) ==> StageNamed(DirectiveArgument(last)).Some?)
  {
    var lines := prefix + [last];
    assert forall i :: 0 <= i < |prefix| ==> lines[i] == prefix[i];
    assert lines[|prefix|] == last;
  }

  /** A directive naming a known stage switches to that stage and copies nothing. */
  lemma DirectiveStep(prefix: seq<string>, last: string, st0: SplitState)
    requires Describes(prefix, st0) && IsDirective(last) && StageNamed(DirectiveArgument(last)).Some?
    ensures SplitLine(st0, last).Ok? && Describes(prefix + [last], SplitLine(st0, last).value)
  {
    var lines := prefix + [last];
    assert lines[..|lines| - 1] == prefix;
    var st := SplitLine(st0, last).value;
    assert st == st0.(current := Some(StageNamed(DirectiveArgument(last)).value));
    forall x
      ensures x in st.sources <==> Feeds(lines, x)
    {
      FeedsExtend(prefix, last, x);
    }
    forall x | x in st.sources
      ensures st.sources[x] == Collect(lines, x)
    {
      CollectExtend(prefix, last, x);
      Util.AppendEmpty(Collect(prefix, x));
    }
  }

  /** An ordinary line is appended, with its newline, to the governing stage's source. */
  lemma OrdinaryStep(prefix: seq<string>, last: string, st0: SplitState)
    requires Describes(prefix, st0) && !IsDirective(last)
    ensures SplitLine(st0, last).Ok? && Describes(prefix + [last], SplitLine(st0, last).value)
  {
    var lines := prefix + [last];
    assert lines[..|lines| - 1] == prefix;
    var stage := Governing(prefix);
    assert stage == if st0.current.Some? then st0.current.value else Compute;
    var before := if stage in st0.sources then st0.sources[stage] else "";
    CollectAbsent(prefix, stage);
    assert before == Collect(prefix, stage);
    var st := SplitState(Some(stage), st0.sources[stage := before + last + "\n"]);
    assert SplitLine(st0, last) == Ok(st);
    forall x
      ensures x in st.sources <==> Feeds(lines, x)
    {
      FeedsExtend(prefix, last, x);
    }
    forall x | x in st.sources
      ensures st.sources[x] == Collect(lines, x)
    {
      CollectExtend(prefix, last, x);
      if x == stage {
        Util.AppendAssoc(before, last, "\n");
      } else {
        Util.AppendEmpty(Collect(prefix, x));
      }
    }
  }

  /** `Collect` after one more line: the line and a newline are added iff the line is ordinary and governed by the stage. */
  lemma CollectExtend(prefix: seq<string>, last: string, stage: Stage)
    ensures Collect(prefix + [last], stage) ==
      Collect(prefix, stage) + if !IsDirective(last) && Governing(prefix) == stage then last + "\n" else ""
  {
    var lines := prefix + [last];
    assert lines[..|lines| - 1] == prefix;
  }

  /** Feeding a stage after one more line: before it, or by that line. */
  lemma FeedsExtend(prefix: seq<string>, last: string, stage: Stage)
    ensures Feeds(prefix + [last], stage) <==> Feeds(prefix, stage) || (!IsDirective(last) && Governing(prefix) == stage)
  {
    var lines := prefix + [last];
    if Feeds(lines, stage) {
      var i :| 0 <= i < |lines| && !IsDirective(lines[i]) && Governing(lines[..i]) == stage;
      if i < |prefix| {
        assert prefix[..i] == lines[..i];
        assert Feeds(prefix, stage);
      } else {
        assert lines[..i] == prefix;
      }
    }
    if Feeds(prefix, stage) {
      var i :| 0 <= i < |prefix| && !IsDirective(prefix[i]) && Governing(prefix[..i]) == stage;
      assert prefix[..i] == lines[..i] && lines[i] == prefix[i];
    }
    if !IsDirective(last) && Governing(prefix) == stage {
      assert lines[..|prefix|] == prefix && lines[|prefix|] == last;
    }
  }

  /** A stage no line is written to collects nothing. */
  lemma {:induction false} CollectAbsent(lines: seq<string>, stage: Stage)
    ensures !Feeds(lines, stage) ==> Collect(lines, stage) == ""
  {
    if lines != [] && !Feeds(lines, stage) {
      var prefix, last := lines[..|lines| - 1], lines[|lines| - 1];
      assert prefix + [last] == lines;
      FeedsExtend(prefix, last, stage);
      assert !Feeds(prefix, stage) && !(!IsDirective(last) && Governing(prefix) == stage);
      CollectAbsent(prefix, stage);
      assert Collect(lines, stage) == Collect(prefix, stage) + "";
    }
  }

  /**
   * The `#stage` loop of `shader::compile` (src/shader.cpp:120-142) over the `getline`
   * lines of the file text, in order. On success it yields the text per stage described by
   * `SplitLinesMeaning`; an unknown stage name stops it with an error.
   */
  method SplitStages(text: string) returns (r: Result<map<Stage, string>>)
    ensures r.Ok? <==> DirectivesValid(Lines(text))
    ensures r.Ok? ==> forall stage :: (stage in r.value <==> Feeds(Lines(text), stage))
    ensures r.Ok? ==> forall stage :: stage in r.value ==> r.value[stage] == Collect(Lines(text), stage)
  {
    var lines := Lines(text);
    var current: Option<Stage> := None;
    var sources: map<Stage, string> := map[];
    var i := 0;
    while i < |lines|
      invariant 0 <= i <= |lines|
      invariant SplitLines(lines[..i]) == Ok(SplitState(current, sources))
    {
      var line := lines[i];
      if line[..if |line| < |StageSwitch| then |line| else |StageSwitch|] == StageSwitch {
        var stageString := line[|StageSwitch|..];
        var named := StageNamed(stageString);
        if named.None? {
          assert lines[..i + 1][..i] == lines[..i];
          SplitLinesMeaning(lines);
          PrefixFails(lines, i + 1);
          return Err("invalid shader stage: " + stageString);
        }
        current := named;
      } else {
        if current.None? {
          current := Some(Compute);
        }
        var stage := current.value;
        var before := if stage in sources then sources[stage] else "";
        sources := sources[stage := before + line + "\n"];
      }
      assert lines[..i + 1][..i] == lines[..i];
      i := i + 1;
    }
    assert lines[..i] == lines;
    SplitLinesMeaning(lines);
    r := Ok(sources);
  }

  /** Once a prefix of the lines fails to split, the whole file fails. */
  lemma {:induction false} PrefixFails(lines: seq<string>, k: nat)
    requires k <= |lines| && SplitLines(lines[..k]).Err?
    ensures SplitLines(lines).Err?
    decreases |lines| - k
  {
    if k < |lines| {
      assert lines[..k + 1][..k] == lines[..k];
      PrefixFails(lines, k + 1);
    } else {
      assert lines[..k] == lines;
    }
  }

  // ---------------------------------------------------------------- reflection data

  datatype ShaderField = ShaderField(offset: nat, typeIndex: nat)

  /** A reflected type: its byte size, array size and stride (stride 0 for non-arrays) and its named fields. */
  datatype ShaderType = ShaderType(name: string, size: nat, arraySize: nat, arrayStride: nat, fields: map<string, ShaderField>)

  datatype ResourceType = UniformBuffer | StorageBuffer | SampledImage | OtherResource(kind: nat)

  datatype ShaderResource = ShaderResource(name: string, resourceType: ResourceType, typeIndex: nat)

  datatype PushConstant = PushConstant(name: string, typeIndex: nat)

  /** `shader_reflection_data`: the type table, resources by set and binding, and push-constant blocks. */
  datatype ReflectionData = ReflectionData(
    types: seq<ShaderType>,
    resources: map<nat, map<nat, ShaderResource>>,
    pushConstants: seq<PushConstant>)

  /** Every type index stored in fields refers to an entry of the type table. */
  predicate TypesClosed(types: seq<ShaderType>)
  {
    forall t, f :: 0 <= t < |types| && f in types[t].fields ==> types[t].fields[f].typeIndex < |types|
  }

  /** Every type index of the reflection data refers to an entry of its type table. */
  predicate WellFormed(data: ReflectionData)
  {
    TypesClosed(data.types) &&
    (forall s, b :: s in data.resources && b in data.resources[s] ==> data.resources[s][b].typeIndex < |data.types|) &&
    (forall i :: 0 <= i < |data.pushConstants| ==> data.pushConstants[i].typeIndex < |data.types|)
  }

  // ---------------------------------------------------------------- find_offset

  /**
   * The index part of one path step: "name" gives (name, -1) and "name[text]" gives
   * (name, atoi(text)). The first ']' must close a non-empty index and end the step.
   */
  function ParseIndex(name: string): Result<(string, int)>
  {
    var open := IndexOf(name, '[');
    if open == |name| then Ok((name, -1))
    else
      var close := IndexOf(name, ']');
      if close <= open + 1 || close >= |name| || close < |name| - 1 then Err("invalid index operator call")
      else Ok((name[..open], Atoi(name[open + 1..close])))
  }

  /**
   * The field `base` of type `t`, at array index `index` (-1 meaning "not indexed"):
   * the field's type and its offset, field offset + index × the field type's array stride.
   */
  function StepOffset(types: seq<ShaderType>, t: nat, base: string, index: int): (r: Result<(nat, int)>)
    requires TypesClosed(types) && t < |types|
    ensures r.Ok? ==> r.value.0 < |types|
  {
    if base !in types[t].fields then Err(base + " is not the name of a field")
    else
      var field := types[t].fields[base];
      var stride := types[field.typeIndex].arrayStride;
      if index != -1 && stride == 0 then Err("attempted to index into a non-array field")
      else Ok((field.typeIndex, field.offset + (if index == -1 then 0 else index) * stride))
  }

  /**
   * `shader_type::find_offset`: the byte offset of a field path such as "lights[2].color"
   * within type `t`. The path is split at its first '.'; the head is a field with an
   * optional index, and the rest is looked up in that field's type.
   */
  function FindOffset(types: seq<ShaderType>, t: nat, fieldName: string): (r: Result<int>)
    requires TypesClosed(types) && t < |types|
    decreases |fieldName|, 1
  {
    var sep := IndexOf(fieldName, '.');
    var subname := if sep < |fieldName| then fieldName[sep + 1..] else "";
    if sep < |fieldName| && subname == "" then Err("invalid field name")
    else FieldStep(types, t, fieldName[..sep], subname)
  }

  /**
   * The rest of `find_offset` once the path is split: the head is parsed into a field and
   * an index and looked up in `t`; a non-empty rest is then looked up in the field's type.
   */
  function FieldStep(types: seq<ShaderType>, t: nat, head: string, subname: string): (r: Result<int>)
    requires TypesClosed(types) && t < |types|
    decreases if subname == [] then 0 else |subname| + 1, 0
  {
    match ParseIndex(head)
    case Err(m) => Err(m)
    case Ok((base, index)) =>
      match StepOffset(types, t, base, index)
      case Err(m) => Err(m)
      case Ok((fieldType, offset)) =>
        if subname == [] then Ok(offset)
        else match FindOffset(types, fieldType, subname)
          case Err(m) => Err(m)
          case Ok(inner) => Ok(offset + inner)
  }

  /** One step of a field path: a field name and an optional array index. */
  datatype PathStep = PathStep(field: string, index: Option<nat>)

  /** A field name that can appear in a path: not empty, no '.', '[' or ']'. */
  predicate PlainName(name: string)
  {
    name != [] && '.' !in name && '[' !in name && ']' !in name
  }

  /** "name" or "name[index]". */
  function RenderStep(step: PathStep): string
  {
    step.field + if step.index.Some? then "[" + Decimal(step.index.value) + "]" else ""
  }

  /** The text form of a path: its steps joined by '.'. */
  function RenderPath(steps: seq<PathStep>): string
    requires steps != []
  {
    if |steps| == 1 then RenderStep(steps[0]) else RenderStep(steps[0]) + "." + RenderPath(steps[1..])
  }

  /**
   * Offset of a structured path, as the reflection layout defines it: each step adds the
   * field's offset plus index × array stride, an index into a field of stride 0 is an
   * error, and the next step is looked up in the field's own type.
   */
  function PathOffset(types: seq<ShaderType>, t: nat, steps: seq<PathStep>): (r: Result<int>)
    requires TypesClosed(types) && t < |types| && steps != []
    decreases |steps|
  {
    var step := steps[0];
    match StepOffset(types, t, step.field, if step.index.Some? then step.index.value else -1)
    case Err(m) => Err(m)
    case Ok((fieldType, offset)) =>
      if |steps| == 1 then Ok(offset)
      else match PathOffset(types, fieldType, steps[1..])
        case Err(m) => Err(m)
        case Ok(inner) => Ok(offset + inner)
  }

  /** `find_offset` on the text of any well-formed path computes that path's offset (and its errors). */
  lemma {:induction false} FindOffsetOfPath(types: seq<ShaderType>, t: nat, steps: seq<PathStep>)
    requires TypesClosed(types) && t < |types| && steps != []
    requires forall i :: 0 <= i < |steps| ==> PlainName(steps[i].field)
    ensures FindOffset(types, t, RenderPath(steps)) == PathOffset(types, t, steps)
    decreases |steps|
  {
    var step := steps[0];
    var head := RenderStep(step);
    StepText(step);
    var index := if step.index.Some? then step.index.value else -1;
    var rest := if |steps| == 1 then "" else RenderPath(steps[1..]);
    if |steps| > 1 {
      assert rest != [] by { assert RenderStep(steps[1])[0] == steps[1].field[0]; }
    }
    FindOffsetUnfold(types, t, head, rest);
    assert FindOffset(types, t, RenderPath(steps)) == FieldStep(types, t, head, rest);
    var so := StepOffset(types, t, step.field, index);
    if so.Err? {
      assert FieldStep(types, t, head, rest) == Err(so.message);
      assert PathOffset(types, t, steps) == Err(so.message);
    } else if |steps| == 1 {
      assert FieldStep(types, t, head, rest) == Ok(so.value.1);
      assert PathOffset(types, t, steps) == Ok(so.value.1);
    } else {
      var fieldType := so.value.0;
      FindOffsetOfPath(types, fieldType, steps[1..]);
      FieldStepThen(types, t, head, rest, step.field, index);
      PathOffsetThen(types, t, steps);
    }
  }

  /** Adds `offset` to a successful inner offset and passes errors through. */
  function Then(offset: int, inner: Result<int>): (r: Result<int>)
    ensures r.Ok? <==> inner.Ok?
    ensures r.Ok? ==> r.value == offset + inner.value
  {
    match inner
    case Err(m) => Err(m)
    case Ok(v) => Ok(offset + v)
  }

  lemma ThenOk(offset: int, inner: int, total: int)
    requires total == offset + inner
    ensures Then(offset, Ok(inner)) == Ok(total)
  {
  }

  /** `FieldStep` with a parsed head whose field exists and a non-empty rest. */
  lemma FieldStepThen(types: seq<ShaderType>, t: nat, head: string, rest: string, base: string, index: int)
    requires TypesClosed(types) && t < |types| && rest != []
    requires ParseIndex(head) == Ok((base, index)) && StepOffset(types, t, base, index).Ok?
    ensures FieldStep(types, t, head, rest) ==
      Then(StepOffset(types, t, base, index).value.1, FindOffset(types, StepOffset(types, t, base, index).value.0, rest))
  {
  }

  /** `PathOffset` of a path of several steps whose first field exists. */
  lemma PathOffsetThen(types: seq<ShaderType>, t: nat, steps: seq<PathStep>)
    requires TypesClosed(types) && t < |types| && |steps| > 1
    requires StepOffset(types, t, steps[0].field, if steps[0].index.Some? then steps[0].index.value else -1).Ok?
    ensures var so := StepOffset(types, t, steps[0].field, if steps[0].index.Some? then steps[0].index.value else -1);
      PathOffset(types, t, steps) == Then(so.value.1, PathOffset(types, so.value.0, steps[1..]))
  {
  }

  /** `find_offset` on "head" or "head.rest", once the head's bracket part is known to parse. */
  lemma FindOffsetUnfold(types: seq<ShaderType>, t: nat, head: string, rest: string)
    requires TypesClosed(types) && t < |types| && '.' !in head
    ensures FindOffset(types, t, if rest == [] then head else head + "." + rest) == FieldStep(types, t, head, rest)
  {
    var text := if rest == [] then head else head + "." + rest;
    if rest == [] {
      IndexOfAbsent(head, '.');
      assert text[..|head|] == head;
    } else {
      assert text == head + ['.'] + rest;
      IndexOfAfter(head, '.', rest);
      assert text[..|head|] == head;
      assert text[|head| + 1..] == rest;
    }
  }

  /** A plain name is looked up directly: its field's offset, or an error when there is no such field. */
  lemma FindOffsetField(types: seq<ShaderType>, t: nat, name: string)
    requires TypesClosed(types) && t < |types| && PlainName(name)
    ensures name in types[t].fields ==> FindOffset(types, t, name) == Ok(types[t].fields[name].offset)
    ensures name !in types[t].fields ==> FindOffset(types, t, name) == Err(name + " is not the name of a field")
  {
    var steps := [PathStep(name, None)];
    assert RenderPath(steps) == name;
    FindOffsetOfPath(types, t, steps);
    assert PathOffset(types, t, steps) == match StepOffset(types, t, name, -1)
      case Err(m) => Err(m)
      case Ok((_, offset)) => Ok(offset);
  }

  /**
   * "name[i]" adds i × the array stride of the field's type to the field's offset, and is
   * an error when that stride is 0 (the field is not an array).
   */
  lemma FindOffsetIndexed(types: seq<ShaderType>, t: nat, name: string, i: nat)
    requires TypesClosed(types) && t < |types| && PlainName(name) && name in types[t].fields
    ensures
      var field := types[t].fields[name];
      var stride := types[field.typeIndex].arrayStride;
      FindOffset(types, t, name + "[" + Decimal(i) + "]") ==
        if stride == 0 then Err("attempted to index into a non-array field") else Ok(field.offset + i * stride)
  {
    IndexedText(name, i);
    FindOffsetSingle(types, t, name + "[" + Decimal(i) + "]", name, i);
    StepOffsetIndexed(types, t, name, i);
  }

  /** "name[i]" holds no '.' and parses into the name and the index. */
  lemma IndexedText(name: string, i: nat)
    requires PlainName(name)
    ensures '.' !in name + "[" + Decimal(i) + "]"
    ensures ParseIndex(name + "[" + Decimal(i) + "]") == Ok((name, i as int))
  {
    var d := Decimal(i);
    assert '[' !in d && ']' !in d && '.' !in d by {
      assert forall k :: 0 <= k < |d| ==> IsDigit(d[k]);
    }
    ParseIndexed(name, d);
    AtoiDecimal(i);
  }

  /** An indexed step into an existing field: the offset scaled by the stride, or the non-array error. */
  lemma StepOffsetIndexed(types: seq<ShaderType>, t: nat, name: string, i: nat)
    requires TypesClosed(types) && t < |types| && name in types[t].fields
    ensures var field := types[t].fields[name];
      var stride := types[field.typeIndex].arrayStride;
      StepOffset(types, t, name, i) ==
        if stride == 0 then Err("attempted to index into a non-array field") else Ok((field.typeIndex, field.offset + i * stride))
  {
  }

  /** `find_offset` on a single step that parses into a field name and an index. */
  lemma FindOffsetSingle(types: seq<ShaderType>, t: nat, head: string, base: string, index: int)
    requires TypesClosed(types) && t < |types| && '.' !in head && ParseIndex(head) == Ok((base, index))
    ensures var so := StepOffset(types, t, base, index);
      FindOffset(types, t, head) == if so.Err? then Err(so.message) else Ok(so.value.1)
  {
    FindOffsetUnfold(types, t, head, "");
    FieldStepLast(types, t, head, base, index);
  }

  /** `FieldStep` on a parsed head with nothing after it: the step's offset or its error. */
  lemma FieldStepLast(types: seq<ShaderType>, t: nat, head: string, base: string, index: int)
    requires TypesClosed(types) && t < |types| && ParseIndex(head) == Ok((base, index))
    ensures var so := StepOffset(types, t, base, index);
      FieldStep(types, t, head, "") == if so.Err? then Err(so.message) else Ok(so.value.1)
  {
  }

  /**
   * "field[index].name": the array field's offset, plus index × its stride, plus the offset of
   * `name` within the element type; an error when the element type has no such field.
   */
  lemma FindOffsetEntry(types: seq<ShaderType>, t: nat, field: string, index: nat, name: string)
    requires TypesClosed(types) && t < |types| && PlainName(field) && PlainName(name) && field in types[t].fields
    requires types[types[t].fields[field].typeIndex].arrayStride != 0
    ensures var entries := types[t].fields[field];
      var element := types[entries.typeIndex];
      var r := FindOffset(types, t, field + "[" + Decimal(index) + "]" + "." + name);
      name in element.fields ==> r.Ok? && r.value == entries.offset + index * element.arrayStride + element.fields[name].offset
    ensures var element := types[types[t].fields[field].typeIndex];
      name !in element.fields ==> FindOffset(types, t, field + "[" + Decimal(index) + "]" + "." + name).Err?
  {
    var head := field + "[" + Decimal(index) + "]";
    IndexedText(field, index);
    FindOffsetUnfold(types, t, head, name);
    StepOffsetIndexed(types, t, field, index);
    FieldStepThen(types, t, head, name, field, index);
    var entries := types[t].fields[field];
    var element := types[entries.typeIndex];
    FindOffsetField(types, entries.typeIndex, name);
    if name in element.fields {
      var offset := StepOffset(types, t, field, index).value.1;
      var total := entries.offset + index * element.arrayStride + element.fields[name].offset;
      ThenOk(offset, element.fields[name].offset, total);
    }
  }

  /** A rendered step has no '.', and parses back into its field name and index. */
  lemma StepText(step: PathStep)
    requires PlainName(step.field)
    ensures '.' !in RenderStep(step)
    ensures ParseIndex(RenderStep(step)) == Ok((step.field, if step.index.Some? then step.index.value else -1))
  {
    if step.index.None? {
      assert RenderStep(step) == step.field;
      IndexOfAbsent(step.field, '[');
    } else {
      assert RenderStep(step) == step.field + "[" + Decimal(step.index.value) + "]";
      IndexedText(step.field, step.index.value);
    }
  }

  /** "name[text]" parses to the name and `atoi(text)` when the text is non-empty and holds no bracket. */
  lemma ParseIndexed(name: string, text: string)
    requires PlainName(name) && text != [] && '[' !in text && ']' !in text
    ensures ParseIndex(name + "[" + text + "]") == Ok((name, Atoi(text)))
  {
    var whole := name + "[" + text + "]";
    assert whole == name + ['['] + (text + "]");
    IndexOfAfter(name, '[', text + "]");
    assert whole == (name + "[" + text) + [']'] + "";
    assert ']' !in name + "[" + text;
    IndexOfAfter(name + "[" + text, ']', "");
    assert whole[..|name|] == name;
    assert whole[|name| + 1..|whole| - 1] == text;
  }

  /** A path ending in '.' is rejected. */
  lemma FindOffsetTrailingDot(types: seq<ShaderType>, t: nat, name: string)
    requires TypesClosed(types) && t < |types| && '.' !in name
    ensures FindOffset(types, t, name + ".") == Err("invalid field name")
  {
    IndexOfAfter(name, '.', "");
    assert name + "." == name + ['.'] + "";
    assert (name + ".")[|name| + 1..] == "";
  }

  /** An empty index, "name[]", is rejected. */
  lemma ParseEmptyIndex(name: string)
    requires PlainName(name)
    ensures ParseIndex(name + "[]") == Err("invalid index operator call")
  {
    var text := name + "[]";
    IndexOfAfter(name, '[', "]");
    IndexOfAfter(name + "[", ']', "");
    assert text == name + ['['] + "]" && text == (name + "[") + [']'] + "";
  }

  /** Text after the closing bracket, as in "name[1]x", is rejected. */
  lemma ParseTextAfterBracket(name: string, index: string, tail: string)
    requires PlainName(name) && '[' !in index && ']' !in index && tail != []
    ensures ParseIndex(name + "[" + index + "]" + tail) == Err("invalid index operator call")
  {
    var text := name + "[" + index + "]" + tail;
    assert text == name + ['['] + (index + "]" + tail);
    IndexOfAfter(name, '[', index + "]" + tail);
    assert text == (name + "[" + index) + [']'] + tail;
    IndexOfAfter(name + "[" + index, ']', tail);
  }

  /** A '[' without any ']' is rejected. */
  lemma ParseUnclosed(name: string, rest: string)
    requires PlainName(name) && ']' !in rest
    ensures ParseIndex(name + "[" + rest) == Err("invalid index operator call")
  {
    var text := name + "[" + rest;
    assert text == name + ['['] + rest;
    IndexOfAfter(name, '[', rest);
    assert ']' !in text;
    IndexOfAbsent(text, ']');
  }

  /** The index "-1" reads as "no index", so "name[-1]" means the same as "name". */
  lemma ParseMinusOne(name: string)
    requires PlainName(name)
    ensures ParseIndex(name + "[-1]") == ParseIndex(name)
  {
    assert name + "[" + "-1" + "]" == name + "[-1]";
    ParseIndexed(name, "-1");
    AtoiMinusOne();
    ParsePlain(name);
  }

  /** A name without '[' parses as itself, not indexed. */
  lemma ParsePlain(name: string)
    requires '[' !in name
    ensures ParseIndex(name) == Ok((name, -1))
  {
    IndexOfAbsent(name, '[');
  }

  // ---------------------------------------------------------------- find_resource

  /** Resource `name` sits at (s, b). */
  predicate ResourceAt(resources: map<nat, map<nat, ShaderResource>>, s: nat, b: nat, name: string)
  {
    s in resources && b in resources[s] && resources[s][b].name == name
  }

  /** (s, b) is where `find_resource` stops: the resource `name` with the least set, then the least binding. */
  ghost predicate FirstResourceAt(resources: map<nat, map<nat, ShaderResource>>, s: nat, b: nat, name: string)
  {
    ResourceAt(resources, s, b, name) &&
    forall s', b' :: ResourceAt(resources, s', b', name) ==> s < s' || (s == s' && b <= b')
  }

  /** `m` is the least element of `xs`. */
  predicate IsMin(xs: set<nat>, m: nat)
  {
    m in xs && forall x :: x in xs ==> m <= x
  }

  /** A non-empty finite set of numbers has a least element. */
  lemma {:induction false} HasMin(xs: set<nat>)
    requires xs != {}
    ensures exists m :: IsMin(xs, m)
    decreases |xs|
  {
    var y :| y in xs;
    if xs == {y} {
      assert IsMin(xs, y);
    } else {
      HasMin(xs - {y});
      var m :| IsMin(xs - {y}, m);
      var least := if y < m then y else m;
      forall x | x in xs
        ensures least <= x
      {
        if x != y {
          assert x in xs - {y};
        }
      }
      assert IsMin(xs, least);
    }
  }

  /**
   * `find_resource`: walk the sets, then the bindings, in ascending order and stop at the
   * first resource named `name`. The caller's `set`/`binding` are returned unchanged when
   * there is none.
   */
  method FindResource(resources: map<nat, map<nat, ShaderResource>>, name: string, setIn: nat, bindingIn: nat)
    returns (found: bool, setOut: nat, bindingOut: nat)
    ensures found <==> exists s, b :: ResourceAt(resources, s, b, name)
    ensures found ==> ResourceAt(resources, setOut, bindingOut, name)
    ensures found ==> forall s, b :: ResourceAt(resources, s, b, name) ==> setOut < s || (setOut == s && bindingOut <= b)
    ensures !found ==> setOut == setIn && bindingOut == bindingIn
  {
    var sets := resources.Keys;
    while sets != {}
      invariant sets <= resources.Keys
      invariant forall s, b :: ResourceAt(resources, s, b, name) ==> s in sets
      invariant forall s, s' :: s in resources.Keys - sets && s' in sets ==> s < s'
      decreases sets
    {
      HasMin(sets);
      var s :| IsMin(sets, s);
      var bindings := resources[s].Keys;
      while bindings != {}
        invariant bindings <= resources[s].Keys
        invariant forall b :: ResourceAt(resources, s, b, name) ==> b in bindings
        invariant forall b, b' :: b in resources[s].Keys - bindings && b' in bindings ==> b < b'
        decreases bindings
      {
        HasMin(bindings);
        var b :| IsMin(bindings, b);
        if resources[s][b].name == name {
          assert ResourceAt(resources, s, b, name);
          return true, s, b;
        }
        forall x, x' | x in resources[s].Keys - (bindings - {b}) && x' in bindings - {b}
          ensures x < x'
        {
          if x != b {
            assert x in resources[s].Keys - bindings;
          }
        }
        bindings := bindings - {b};
      }
      forall x, x' | x in resources.Keys - (sets - {s}) && x' in sets - {s}
        ensures x < x'
      {
        if x != s {
          assert x in resources.Keys - sets;
        }
      }
      sets := sets - {s};
    }
    return false, setIn, bindingIn;
  }

  // ---------------------------------------------------------------- shader_library

  /** A compiled shader as far as the library and its users see it. */
  class ShaderObject {
    const path: string
    const reflection: ReflectionData
    /** `m_dependents`: the pipelines built on this shader. */
    var dependents: set<object>

    /** The constructor takes a renderer reference before compiling (compilation gives `reflection`). */
    constructor (path: string, reflection: ReflectionData, renderer: Renderer.RendererData)
      modifies renderer
      ensures this.path == path && this.reflection == reflection && dependents == {}
      ensures renderer.refCount == old(renderer.refCount) + 1
      ensures renderer.shouldShutdown == old(renderer.shouldShutdown) && renderer.teardowns == old(renderer.teardowns)
    {
      this.path := path;
      this.reflection := reflection;
      dependents := {};
      new;
      renderer.AddRef();
    }

    /** The destructor: the shader modules go, and the renderer reference is returned. */
    method Dispose(renderer: Renderer.RendererData)
      requires renderer.refCount > 0
      modifies renderer
      ensures renderer.refCount == old(renderer.refCount) - 1
      ensures renderer.teardowns == old(renderer.teardowns) + (if renderer.refCount == 0 && renderer.shouldShutdown then 1 else 0)
    {
      renderer.RemoveRef();
    }
  }

  /** The global `shader_library` table from names to shaders. */
  class ShaderLibrary {
    var shaders: map<string, ShaderObject>

    constructor ()
      ensures shaders == map[]
    {
      shaders := map[];
    }

    /** `add`: refuses a taken name or a null shader, without overwriting; otherwise inserts. */
    method Add(name: string, shader: ShaderObject?) returns (added: bool)
      modifies this
      ensures added <==> name !in old(shaders) && shader != null
      ensures added ==> shaders == old(shaders)[name := shader]
      ensures !added ==> shaders == old(shaders)
    {
      if name in shaders {
        return false;
      }
      if shader == null {
        return false;
      }
      shaders := shaders[name := shader];
      return true;
    }

    /** `remove`: fails for an unknown name, otherwise erases it. */
    method Remove(name: string) returns (removed: bool)
      modifies this
      ensures removed <==> name in old(shaders)
      ensures shaders == old(shaders) - {name}
    {
      if name !in shaders {
        return false;
      }
      shaders := shaders - {name};
      return true;
    }

    /** `get`: the shader registered under `name`, or null. */
    method Get(name: string) returns (shader: ShaderObject?)
      ensures name in shaders ==> shader == shaders[name]
      ensures name !in shaders ==> shader == null
    {
      shader := null;
      if name in shaders {
        shader := shaders[name];
      }
    }

    /** `clear`: empties the table. */
    method Clear()
      modifies this
      ensures shaders == map[]
    {
      shaders := map[];
    }
  }
}
