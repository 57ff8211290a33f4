/**
 * Graphics-pipeline descriptions: the state enums and their defaults, the
 * colour write mask `ColorComponentFlags` with its set-or-clear setters and its
 * `Debug` text, the `Debug` text of the other pipeline flag words, and the
 * by-value builders of the shader-stage, vertex-input and input-assembly
 * descriptions.
 */
module VkPipeline {
  import Outcome
  import opened Bits
  import opened Text
  import VkDevice
  import ffi = VkFfi

  datatype FrontFace = CounterClockwise | Clockwise

  datatype VertexInputRate = Vertex | Instance

  datatype PrimitiveTopology =
    | PointList
    | LineList
    | LineStrip
    | TriangleList
    | TriangleStrip
    | TriangleFan
    | LineListWithAdjacency
    | LineStripWithAdjacency
    | TriangleListWithAdjacency
    | TriangleStripWithAdjacency
    | PatchList

  datatype PolygonMode = Fill | Line | Point | FillRectangleNv

  datatype LogicOp =
    | Clear | And | AndReverse | Copy | AndInverted | NoOp | Xor | Or
    | Nor | Equivalent | Invert | OrReverse | CopyInverted | OrInverted | Nand | Set

  datatype ShaderStage =
    | Vertex
    | TessellationControl
    | TessellationEvaluation
    | Geometry
    | Fragment
    | Compute
    | AllGraphics
    | All
    | RaygenKhr
    | AnyHitKhr
    | ClosestHitKhr
    | MissKhr
    | IntersectionKhr
    | CallableKhr
    | TaskNv
    | MeshNv
    | SubpassShadingHuawei

  /** `FrondAndBack` keeps the wrapper's own spelling. */
  datatype CullMode = None | Front | Back | FrondAndBack

  datatype SampleCount = OneBit | TwoBit | FourBit | EightBit | SixteenBit | ThirtytwoBit | SixtyfourBit

  datatype BlendFactor =
    | Zero | One | SrcColor | OneMinusSrcColor | DstColor | OneMinusDstColor
    | SrcAlpha | OneMinusSrcAlpha | DstAlpha | OneMinusDstAlpha | ConstantColor
    | OneMinusConstantColor | ConstantAlpha | OneMinusConstantAlpha | SrcAlphaSaturate
    | Src1Color | OneMinusSrc1Color | Src1Alpha | OneMinusSrc1Alpha

  datatype BlendOp =
    | Add | Subtract | ReverseSubtract | Min | Max
    | ZeroExt | SrcExt | DstExt | SrcOverExt | DstOverExt | SrcInExt | DstInExt
    | SrcOutExt | DstOutExt | SrcAtopExt | DstAtopExt | XorExt | MultiplyExt
    | ScreenExt | OverlayExt | DarkenExt | LightenExt | ColordodgeExt | ColorburnExt
    | HardlightExt | SoftlightExt | DifferenceExt | ExclusionExt | InvertExt
    | InvertRgbExt | LineardodgeExt | LinearburnExt | VividlightExt | LinearlightExt
    | PinlightExt | HardmixExt | HslHueExt | HslSaturationExt | HslColorExt
    | HslLuminosityExt | PlusExt | PlusClampedExt | PlusClampedAlphaExt | PlusDarkerExt
    | MinusExt | MinusClampedExt | ContrastExt | InvertOvgExt | RedExt | GreenExt | BlueExt

  // The hand-written `Default` impls.
  const DEFAULT_FRONT_FACE: FrontFace := CounterClockwise
  const DEFAULT_PRIMITIVE_TOPOLOGY: PrimitiveTopology := PointList
  const DEFAULT_POLYGON_MODE: PolygonMode := Fill
  const DEFAULT_LOGIC_OP: LogicOp := LogicOp.Clear
  const DEFAULT_SHADER_STAGE: ShaderStage := ShaderStage.Vertex
  const DEFAULT_CULL_MODE: CullMode := CullMode.None
  const DEFAULT_SAMPLE_COUNT: SampleCount := OneBit
  const DEFAULT_BLEND_FACTOR: BlendFactor := BlendFactor.Zero
  const DEFAULT_BLEND_OP: BlendOp := Add

  /** The variant each hand-written `Default` impl returns. */
  lemma DefaultsAreFirstVariants()
    ensures DEFAULT_FRONT_FACE.CounterClockwise? && DEFAULT_PRIMITIVE_TOPOLOGY.PointList?
    ensures DEFAULT_POLYGON_MODE.Fill? && DEFAULT_LOGIC_OP.Clear? && DEFAULT_SHADER_STAGE.Vertex?
    ensures DEFAULT_CULL_MODE.None? && DEFAULT_SAMPLE_COUNT.OneBit?
    ensures DEFAULT_BLEND_FACTOR.Zero? && DEFAULT_BLEND_OP.Add?
  {
  }

  datatype ColorComponent = Red | Green | Blue | Alpha

  /** The native bit a component's setter works on. */
  function ComponentBit(c: ColorComponent): bv32 {
    match c
    case Red => ffi.ColorComponentFlagBits.Red.Bit()
    case Green => ffi.ColorComponentFlagBits.Green.Bit()
    case Blue => ffi.ColorComponentFlagBits.Blue.Bit()
    case Alpha => ffi.ColorComponentFlagBits.Alpha.Bit()
  }

  /** The colour write mask, `ColorComponentFlags(u32)`. */
  datatype ColorComponentFlags = ColorComponentFlags(word: bv32)

  /** `ColorComponentFlags::new()`, the derived `Default`: no component is written. */
  function NewColorComponentFlags(): (f: ColorComponentFlags)
    ensures f.word == 0
    ensures forall c :: !Has(f.word, ComponentBit(c))
  {
    ColorComponentFlags(0)
  }

  /**
   * `with_red(on)`, `with_green(on)`, `with_blue(on)`, `with_alpha(on)`:
   * afterwards the component's bit is set exactly when `on` holds, and every
   * other bit of the word is as it was.
   */
  function WithComponent(f: ColorComponentFlags, c: ColorComponent, on: bool): (r: ColorComponentFlags)
    ensures Has(r.word, ComponentBit(c)) == on
    ensures r.word & !ComponentBit(c) == f.word & !ComponentBit(c)
  {
    AssignDecides(f.word, ComponentBit(c), on);
    ColorComponentFlags(Assign(f.word, ComponentBit(c), on))
  }

  /** Of two calls of the same setter the last one decides; repeating a call changes nothing. */
  lemma WithComponentLastWins(f: ColorComponentFlags, c: ColorComponent, p: bool, q: bool)
    ensures WithComponent(WithComponent(f, c, p), c, q) == WithComponent(f, c, q)
    ensures WithComponent(WithComponent(f, c, q), c, q) == WithComponent(f, c, q)
  {
    AssignLastWins(f.word, ComponentBit(c), p, q);
    AssignLastWins(f.word, ComponentBit(c), q, q);
  }

  /** The name `Debug` writes for a component. */
  function ComponentName(c: ColorComponent): string {
    match c
    case Red => "RED"
    case Green => "GREEN"
    case Blue => "BLUE"
    case Alpha => "ALPHA"
  }

  /** The names of the components set in `word`, in the order `Debug` tests them. */
  function SetComponentNames(word: bv32): seq<string> {
    (if Has(word, ComponentBit(Red)) then ["RED"] else [])
    + (if Has(word, ComponentBit(Blue)) then ["BLUE"] else [])
    + (if Has(word, ComponentBit(Green)) then ["GREEN"] else [])
    + (if Has(word, ComponentBit(Alpha)) then ["ALPHA"] else [])
  }

  /** The text `Debug` produces for a colour write mask. */
  function ColorComponentFlagsText(f: ColorComponentFlags): string {
    if f.word == 0 then "()" else Join(SetComponentNames(f.word), " | ")
  }

  /**
   * The listed names are exactly those of the set components, each once, in
   * the order RED, BLUE, GREEN, ALPHA.
   */
  lemma SetComponentNamesExact(word: bv32, c: ColorComponent)
    ensures ComponentName(c) in SetComponentNames(word) <==> Has(word, ComponentBit(c))
    ensures forall i, j :: 0 <= i < j < |SetComponentNames(word)| ==>
      Rank(SetComponentNames(word)[i]) < Rank(SetComponentNames(word)[j])
  {
  }

  /** The position of a component's name in the order RED, BLUE, GREEN, ALPHA. */
  function Rank(name: string): nat {
    if name == "RED" then 0 else if name == "BLUE" then 1 else if name == "GREEN" then 2 else 3
  }

  /** After a setter, `Debug` names the component exactly when the setter was given `true`. */
  lemma WithComponentShows(f: ColorComponentFlags, c: ColorComponent, on: bool)
    ensures ComponentName(c) in SetComponentNames(WithComponent(f, c, on).word) <==> on
  {
    SetComponentNamesExact(WithComponent(f, c, on).word, c);
  }

  /**
   * `Debug for ColorComponentFlags`: `"()"` for the word 0; otherwise the names
   * of the set components, tested in the order RED, BLUE, GREEN, ALPHA, with
   * `" | "` written before every name but the first. The formatter is taken to
   * accept every write.
   */
  method ColorComponentFlagsDebug(f: ColorComponentFlags) returns (out: string)
    ensures out == ColorComponentFlagsText(f)
  {
    if f.word == 0 {
      out := "()";
      return;
    }
    out := "";
    var first := true;
    ghost var names: seq<string> := [];
    if Has(f.word, ComponentBit(Red)) {
      if first {
        first := false;
      }
      JoinAppend(names, " | ", "RED");
      out := out + "RED";
      names := names + ["RED"];
    }
    assert out == Join(names, " | ") && (first <==> names == []);
    if Has(f.word, ComponentBit(Blue)) {
      JoinAppend(names, " | ", "BLUE");
      if first {
        first := false;
      } else {
        out := out + " | ";
      }
      out := out + "BLUE";
      names := names + ["BLUE"];
    }
    assert out == Join(names, " | ") && (first <==> names == []);
    if Has(f.word, ComponentBit(Green)) {
      JoinAppend(names, " | ", "GREEN");
      if first {
        first := false;
      } else {
        out := out + " | ";
      }
      out := out + "GREEN";
      names := names + ["GREEN"];
    }
    assert out == Join(names, " | ") && (first <==> names == []);
    if Has(f.word, ComponentBit(Alpha)) {
      JoinAppend(names, " | ", "ALPHA");
      if !first {
        out := out + " | ";
      }
      out := out + "ALPHA";
      names := names + ["ALPHA"];
    }
    assert names == SetComponentNames(f.word);
  }

  /** A non-zero word with none of the four component bits prints nothing at all. */
  lemma ForeignBitsPrintNothing(f: ColorComponentFlags)
    requires f.word != 0
    requires forall c :: !Has(f.word, ComponentBit(c))
    ensures ColorComponentFlagsText(f) == ""
  {
    assert !Has(f.word, ComponentBit(Red)) && !Has(f.word, ComponentBit(Blue));
    assert !Has(f.word, ComponentBit(Green)) && !Has(f.word, ComponentBit(Alpha));
  }

  /** The new mask prints `"()"`. */
  lemma NewPrintsParens()
    ensures ColorComponentFlagsText(NewColorComponentFlags()) == "()"
  {
  }

  /** With every component set, the names follow the test order and are separated by `" | "`. */
  lemma AllComponentsText()
    ensures ColorComponentFlagsText(ColorComponentFlags(0xF)) == "RED | BLUE | GREEN | ALPHA"
  {
    AllComponentsNames();
    FourNamesJoined();
  }

  lemma AllComponentsNames()
    ensures SetComponentNames(0xF) == ["RED", "BLUE", "GREEN", "ALPHA"]
  {
    assert Has(0xF, ComponentBit(Red)) && Has(0xF, ComponentBit(Blue));
    assert Has(0xF, ComponentBit(Green)) && Has(0xF, ComponentBit(Alpha));
  }

  lemma FourNamesJoined()
    ensures Join(["RED", "BLUE", "GREEN", "ALPHA"], " | ") == "RED | BLUE | GREEN | ALPHA"
  {
    JoinAppend(["RED"], " | ", "BLUE");
    assert ["RED"] + ["BLUE"] == ["RED", "BLUE"];
    JoinAppend(["RED", "BLUE"], " | ", "GREEN");
    assert ["RED", "BLUE"] + ["GREEN"] == ["RED", "BLUE", "GREEN"];
    JoinAppend(["RED", "BLUE", "GREEN"], " | ", "ALPHA");
    assert ["RED", "BLUE", "GREEN"] + ["ALPHA"] == ["RED", "BLUE", "GREEN", "ALPHA"];
  }

  /** Green and alpha alone: the red and blue tests write nothing and no separator leads. */
  lemma GreenAlphaText()
    ensures ColorComponentFlagsText(ColorComponentFlags(0xA)) == "GREEN | ALPHA"
  {
    assert SetComponentNames(0xA) == ["GREEN", "ALPHA"];
  }

  /** The pipeline flag words; each is `struct …(u32)` whose derived `Default` is 0. */
  datatype FlagsKind =
    | ShaderStageCreate
    | VertexInputStateCreate
    | InputAssemblyStateCreate
    | ViewportStateCreate
    | RasterizationStateCreate
    | MultisampleStateCreate
    | ColorBlendStateCreate

  /**
   * The hand-written `Debug` of a pipeline flag word: the multisample and
   * colour-blend words always print `"()"`; the others print `"()"` for 0 and
   * `"non-empty"` for any other word.
   */
  function FlagsDebug(kind: FlagsKind, word: bv32): (s: string)
    ensures kind.MultisampleStateCreate? || kind.ColorBlendStateCreate? ==> s == "()"
    ensures !(kind.MultisampleStateCreate? || kind.ColorBlendStateCreate?) ==>
      (s == "()" <==> word == 0) && (word != 0 ==> s == "non-empty")
  {
    match kind
    case MultisampleStateCreate => "()"
    case ColorBlendStateCreate => "()"
    case _ => if word == 0 then "()" else "non-empty"
  }

  /** `PipelineShaderStageCreateInfo`; the specialization info is still a placeholder `Option<()>`. */
  datatype PipelineShaderStageCreateInfo = PipelineShaderStageCreateInfo(
    flags: bv32,
    stage: ShaderStage,
    shaderModule: VkDevice.ShaderModule,
    name: string,
    specializationInfo: Outcome.Option<()>)

  /** `PipelineShaderStageCreateInfo::new(module)`. */
  function NewShaderStage(shaderModule: VkDevice.ShaderModule): (info: PipelineShaderStageCreateInfo)
    ensures info.shaderModule == shaderModule
    ensures info.flags == 0 && info.stage == DEFAULT_SHADER_STAGE && info.stage.Vertex?
    ensures info.name == "main" && info.specializationInfo.None?
  {
    PipelineShaderStageCreateInfo(0, DEFAULT_SHADER_STAGE, shaderModule, "main", Outcome.None)
  }

  /** `with_flags`: replaces the flags and nothing else. */
  function WithShaderStageFlags(info: PipelineShaderStageCreateInfo, flags: bv32): (r: PipelineShaderStageCreateInfo)
    ensures r.flags == flags && r.(flags := info.flags) == info
  {
    info.(flags := flags)
  }

  /** `with_stage`: replaces the stage and nothing else. */
  function WithStage(info: PipelineShaderStageCreateInfo, stage: ShaderStage): (r: PipelineShaderStageCreateInfo)
    ensures r.stage == stage && r.(stage := info.stage) == info
  {
    info.(stage := stage)
  }

  /** `with_name`: replaces the entry-point name and nothing else. */
  function WithName(info: PipelineShaderStageCreateInfo, name: string): (r: PipelineShaderStageCreateInfo)
    ensures r.name == name && r.(name := info.name) == info
  {
    info.(name := name)
  }

  /** `_with_specialization_info`: not written yet, it always panics with `todo!()`. */
  function WithSpecializationInfo(info: PipelineShaderStageCreateInfo, specializationInfo: Outcome.Option<()>)
    : (r: Outcome.Run<PipelineShaderStageCreateInfo>)
    ensures r == Outcome.Aborts(Outcome.Todo)
  {
    Outcome.Aborts(Outcome.Todo)
  }

  /** The three setters touch disjoint fields, so they may be applied in any order. */
  lemma ShaderStageSettersCommute(info: PipelineShaderStageCreateInfo, flags: bv32, stage: ShaderStage, name: string)
    ensures WithStage(WithShaderStageFlags(info, flags), stage) == WithShaderStageFlags(WithStage(info, stage), flags)
    ensures WithName(WithStage(info, stage), name) == WithStage(WithName(info, name), stage)
    ensures WithName(WithShaderStageFlags(info, flags), name) == WithShaderStageFlags(WithName(info, name), flags)
  {
  }

  datatype VertexInputBindingDescription = VertexInputBindingDescription(
    binding: u32,
    stride: u32,
    inputRate: VertexInputRate)

  datatype VertexInputAttributeDescription = VertexInputAttributeDescription(
    location: u32,
    binding: u32,
    format: ffi.Format,
    offset: u32)

  /** `PipelineVertexInputStateCreateInfo`; both description lists are optional. */
  datatype PipelineVertexInputStateCreateInfo = PipelineVertexInputStateCreateInfo(
    flags: bv32,
    bindingDescriptions: Outcome.Option<seq<VertexInputBindingDescription>>,
    attributeDescriptions: Outcome.Option<seq<VertexInputAttributeDescription>>)

  /** The derived `Default`: flags 0 and neither list given. */
  function DefaultVertexInputState(): (info: PipelineVertexInputStateCreateInfo)
    ensures info.flags == 0
    ensures info.bindingDescriptions.None? && info.attributeDescriptions.None?
  {
    PipelineVertexInputStateCreateInfo(0, Outcome.None, Outcome.None)
  }

  /** `with_vertex_binding_descriptions`: gives the binding list and changes nothing else. */
  function WithVertexBindingDescriptions(info: PipelineVertexInputStateCreateInfo,
                                         descriptions: seq<VertexInputBindingDescription>)
    : (r: PipelineVertexInputStateCreateInfo)
    ensures r.bindingDescriptions == Outcome.Some(descriptions)
    ensures r.(bindingDescriptions := info.bindingDescriptions) == info
  {
    info.(bindingDescriptions := Outcome.Some(descriptions))
  }

  /** `with_vertex_attribute_descriptions`: gives the attribute list and changes nothing else. */
  function WithVertexAttributeDescriptions(info: PipelineVertexInputStateCreateInfo,
                                           descriptions: seq<VertexInputAttributeDescription>)
    : (r: PipelineVertexInputStateCreateInfo)
    ensures r.attributeDescriptions == Outcome.Some(descriptions)
    ensures r.(attributeDescriptions := info.attributeDescriptions) == info
  {
    info.(attributeDescriptions := Outcome.Some(descriptions))
  }

  /** `PipelineInputAssemblyStateCreateInfo`. */
  datatype PipelineInputAssemblyStateCreateInfo = PipelineInputAssemblyStateCreateInfo(
    flags: bv32,
    topology: PrimitiveTopology,
    primitiveRestartEnable: bool)

  /** `PipelineInputAssemblyStateCreateInfo::new()`, which `Default` also returns. */
  function NewInputAssemblyState(): (info: PipelineInputAssemblyStateCreateInfo)
    ensures info.flags == 0 && info.topology == DEFAULT_PRIMITIVE_TOPOLOGY && info.topology.PointList?
    ensures !info.primitiveRestartEnable
  {
    PipelineInputAssemblyStateCreateInfo(0, DEFAULT_PRIMITIVE_TOPOLOGY, false)
  }

  /** `with_topology`: replaces the topology and nothing else. */
  function WithTopology(info: PipelineInputAssemblyStateCreateInfo, topology: PrimitiveTopology)
    : (r: PipelineInputAssemblyStateCreateInfo)
    ensures r.topology == topology && r.(topology := info.topology) == info
  {
    info.(topology := topology)
  }

  /** `with_primitive_restart_enable`: replaces the restart switch and nothing else. */
  function WithPrimitiveRestartEnable(info: PipelineInputAssemblyStateCreateInfo, enable: bool)
    : (r: PipelineInputAssemblyStateCreateInfo)
    ensures r.primitiveRestartEnable == enable && r.(primitiveRestartEnable := info.primitiveRestartEnable) == info
  {
    info.(primitiveRestartEnable := enable)
  }
}
