/** The pipeline objects of liblava/block/pipeline.hpp: a pipeline layout that
    collects descriptor-set layouts and push-constant ranges, the state every
    pipeline shares (flags, layout, native handle), and the graphics and
    compute pipelines built on it. The native Vulkan objects are opaque
    handles; a null handle or pointer is None. The C++ inheritance from
    `pipeline` becomes a `base` object owned by each concrete pipeline. */
module Pipeline {
  import opened Wrappers

  /** A non-null native handle (VkPipeline, VkPipelineLayout, VkRenderPass,
      VkPipelineCache) or a non-null `device*`. */
  datatype Handle = Handle(id: nat)

  /** A `descriptor::ptr`: a shared descriptor-set layout object. */
  datatype Descriptor = Descriptor(id: nat)

  /** `VkPushConstantRange`. */
  datatype PushConstantRange = PushConstantRange(stageFlags: nat, offset: nat, size: nat)

  /** An `r32` kept as its IEEE-754 bit pattern; no arithmetic is done on it. */
  datatype Float32 = Float32(bits: bv32)

  /** 1.f */
  const ONE_F32: Float32 := Float32(0x3F80_0000)

  /** `VkViewport`. */
  datatype Viewport = Viewport(x: Float32, y: Float32, width: Float32, height: Float32,
                               minDepth: Float32, maxDepth: Float32)

  /** `VkRect2D`: a signed offset and an unsigned extent. */
  datatype Rect2D = Rect2D(offsetX: int, offsetY: int, width: nat, height: nat)

  /** `graphics_pipeline::size_type`. */
  datatype SizeType = Input | Absolute | Relative

  /** `VkShaderStageFlagBits`. */
  datatype StageFlag = Vertex | Fragment | Compute | OtherStage(bits: nat)

  const ZERO_VIEWPORT: Viewport :=
    Viewport(Float32(0), Float32(0), Float32(0), Float32(0), Float32(0), Float32(0))
  const ZERO_RECT: Rect2D := Rect2D(0, 0, 0, 0)

  /** `pipeline_layout`. */
  class PipelineLayout {
    var descriptors: seq<Descriptor>
    var pushConstantRanges: seq<PushConstantRange>
    /** The native `VkPipelineLayout`, null until the layout is created. */
    var layout: Option<Handle>

    /** `pipeline_layout::make()`. */
    constructor ()
      ensures descriptors == [] && pushConstantRanges == [] && layout == None
    {
      descriptors := [];
      pushConstantRanges := [];
      layout := None;
    }

    /** `add(descriptor)`. */
    method AddDescriptor(descriptor: Descriptor)
      modifies this`descriptors
      ensures descriptors == old(descriptors) + [descriptor]
    {
      descriptors := descriptors + [descriptor];
    }

    /** `add(range)`. */
    method AddPushConstantRange(range: PushConstantRange)
      modifies this`pushConstantRanges
      ensures pushConstantRanges == old(pushConstantRanges) + [range]
    {
      pushConstantRanges := pushConstantRanges + [range];
    }

    /** `add_layout(layout)`, the same as `add(layout)`. */
    method AddLayout(descriptor: Descriptor)
      modifies this`descriptors
      ensures descriptors == old(descriptors) + [descriptor]
    {
      AddDescriptor(descriptor);
    }

    /** `add_range(range)`, the same as `add(range)`. */
    method AddRange(range: PushConstantRange)
      modifies this`pushConstantRanges
      ensures pushConstantRanges == old(pushConstantRanges) + [range]
    {
      AddPushConstantRange(range);
    }

    function Get(): Option<Handle>
      reads this
    {
      layout
    }

    function GetDescriptors(): seq<Descriptor>
      reads this
    {
      descriptors
    }

    function GetPushConstantRanges(): seq<PushConstantRange>
      reads this
    {
      pushConstantRanges
    }
  }

  /** `pipeline::shader_stage`: only the stage bit of its create info. */
  class ShaderStage {
    var stage: StageFlag

    /** `shader_stage::create(stage)`. */
    constructor (stage: StageFlag)
      ensures this.stage == stage
    {
      this.stage := stage;
    }

    /** `set_stage(stage)`. */
    method SetStage(stage: StageFlag)
      modifies this`stage
      ensures this.stage == stage
    {
      this.stage := stage;
    }
  }

  /** The state of the abstract `pipeline`. */
  class PipelineBase {
    const device: Option<Handle>
    const pipelineCache: Option<Handle>
    /** `_pipeline`, the native pipeline: null until created. */
    var handle: Option<Handle>
    /** `layout`, shared with other pipelines; null until set. */
    var layout: PipelineLayout?
    var active: bool
    var autoBind: bool

    /** `pipeline(device, pipeline_cache)`. */
    constructor (device: Option<Handle>, pipelineCache: Option<Handle>)
      ensures this.device == device && this.pipelineCache == pipelineCache
      ensures active && !autoBind && handle == None && layout == null
    {
      this.device := device;
      this.pipelineCache := pipelineCache;
      handle := None;
      layout := null;
      active := true;
      autoBind := false;
    }

    /** `set_active(value)`. */
    method SetActive(value: bool)
      modifies this`active
      ensures active == value
    {
      active := value;
    }

    function IsActive(): bool
      reads this
    {
      active
    }

    /** `toggle()`. */
    method Toggle()
      modifies this`active
      ensures active == !old(active)
    {
      active := !active;
    }

    /** `set_auto_bind(value)`. */
    method SetAutoBind(value: bool)
      modifies this`autoBind
      ensures autoBind == value
    {
      autoBind := value;
    }

    function IsAutoBind(): bool
      reads this
    {
      autoBind
    }

    /** `is_ready()`: the native pipeline exists. */
    predicate IsReady()
      reads this
    {
      handle.Some?
    }

    function GetLayout(): PipelineLayout?
      reads this
    {
      layout
    }

    /** `set_layout(value)`. */
    method SetLayout(value: PipelineLayout?)
      modifies this`layout
      ensures layout == value
    {
      layout := value;
    }

    /** `create()`: `built` is the native pipeline the subtype's
        `create_internal` produces, None when it fails. */
    method Create(built: Option<Handle>) returns (ok: bool)
      modifies this`handle
      ensures handle == built
      ensures ok <==> IsReady()
    {
      handle := built;
      ok := built.Some?;
    }

    /** `destroy()`: the native pipeline is released; calling it again is harmless. */
    method Destroy()
      modifies this`handle
      ensures !IsReady()
    {
      handle := None;
    }
  }

  /** Every configuration field of a graphics pipeline that a copy carries over. */
  datatype GraphicsConfig = GraphicsConfig(
    layout: PipelineLayout?,
    renderPass: Option<Handle>,
    shaderStages: seq<ShaderStage>,
    sizeType: SizeType,
    viewport: Viewport,
    scissor: Rect2D,
    autoSize: bool,
    lineWidth: Float32,
    autoLineWidth: bool)

  /** `graphics_pipeline`. */
  class GraphicsPipeline {
    const base: PipelineBase
    var renderPass: Option<Handle>
    var shaderStages: seq<ShaderStage>
    var sizeType: SizeType
    var viewport: Viewport
    var scissor: Rect2D
    var autoSize: bool
    var autoLineWidth: bool
    var lineWidth: Float32

    /** `graphics_pipeline::make(device, pipeline_cache)`: the member
        initialisers of the header give the defaults. */
    constructor (device: Option<Handle>, pipelineCache: Option<Handle>)
      ensures fresh(base) && base.device == device && base.pipelineCache == pipelineCache
      ensures base.active && !base.autoBind && base.handle == None && base.layout == null
      ensures renderPass == None && shaderStages == []
      ensures sizeType == Input && autoSize && !autoLineWidth && lineWidth == ONE_F32
    {
      base := new PipelineBase(device, pipelineCache);
      renderPass := None;
      shaderStages := [];
      sizeType := Input;
      viewport := ZERO_VIEWPORT;
      scissor := ZERO_RECT;
      autoSize := true;
      autoLineWidth := false;
      lineWidth := ONE_F32;
    }

    function Config(): GraphicsConfig
      reads this, base
    {
      GraphicsConfig(base.layout, renderPass, shaderStages, sizeType, viewport,
                     scissor, autoSize, lineWidth, autoLineWidth)
    }

    /** `set_render_pass(pass)`. */
    method SetRenderPass(pass: Option<Handle>)
      modifies this`renderPass
      ensures renderPass == pass
    {
      renderPass := pass;
    }

    /** `set(pass)`, the same as `set_render_pass(pass)`. */
    method Set(pass: Option<Handle>)
      modifies this`renderPass
      ensures renderPass == pass
    {
      SetRenderPass(pass);
    }

    function GetRenderPass(): Option<Handle>
      reads this
    {
      renderPass
    }

    /** `create(pass)`: the render pass is set first, then `pipeline::create()`
        runs; `built` is what `create_internal` produces. */
    method Create(pass: Option<Handle>, built: Option<Handle>) returns (ok: bool)
      modifies this`renderPass, base`handle
      ensures renderPass == pass && base.handle == built
      ensures ok <==> base.IsReady()
    {
      Set(pass);
      ok := base.Create(built);
    }

    /** `add(shader_stage)`. */
    method AddShaderStage(stage: ShaderStage)
      modifies this`shaderStages
      ensures shaderStages == old(shaderStages) + [stage]
    {
      shaderStages := shaderStages + [stage];
    }

    function GetShaderStages(): seq<ShaderStage>
      reads this
    {
      shaderStages
    }

    /** `clear_shader_stages()`. */
    method ClearShaderStages()
      modifies this`shaderStages
      ensures shaderStages == []
    {
      shaderStages := [];
    }

    /** `set_auto_size(value)`. */
    method SetAutoSize(value: bool)
      modifies this`autoSize
      ensures autoSize == value
    {
      autoSize := value;
    }

    function IsAutoSize(): bool
      reads this
    {
      autoSize
    }

    function GetViewport(): Viewport
      reads this
    {
      viewport
    }

    /** `set_viewport(value)`. */
    method SetViewport(value: Viewport)
      modifies this`viewport
      ensures viewport == value
    {
      viewport := value;
    }

    function GetScissor(): Rect2D
      reads this
    {
      scissor
    }

    /** `set_scissor(value)`. */
    method SetScissor(value: Rect2D)
      modifies this`scissor
      ensures scissor == value
    {
      scissor := value;
    }

    function GetSizeType(): SizeType
      reads this
    {
      sizeType
    }

    /** `set_size_type(value)`. */
    method SetSizeType(value: SizeType)
      modifies this`sizeType
      ensures sizeType == value
    {
      sizeType := value;
    }

    /** `set_line_width(value)`. */
    method SetLineWidth(value: Float32)
      modifies this`lineWidth
      ensures lineWidth == value
    {
      lineWidth := value;
    }

    function GetLineWidth(): Float32
      reads this
    {
      lineWidth
    }

    function IsAutoLineWidth(): bool
      reads this
    {
      autoLineWidth
    }

    /** `set_auto_line_width(value)`. */
    method SetAutoLineWidth(value: bool)
      modifies this`autoLineWidth
      ensures autoLineWidth == value
    {
      autoLineWidth := value;
    }

    /** `copy_to(target)`: every configuration field is copied; the target
        keeps its own native pipeline and its own flags. */
    method CopyTo(target: GraphicsPipeline)
      modifies target`renderPass, target`shaderStages, target`sizeType, target`viewport,
               target`scissor, target`autoSize, target`lineWidth, target`autoLineWidth,
               target.base`layout
      ensures target.Config() == old(Config())
    {
      var config := Config();
      target.base.SetLayout(config.layout);
      target.renderPass := config.renderPass;
      target.shaderStages := config.shaderStages;
      target.sizeType := config.sizeType;
      target.viewport := config.viewport;
      target.scissor := config.scissor;
      target.autoSize := config.autoSize;
      target.lineWidth := config.lineWidth;
      target.autoLineWidth := config.autoLineWidth;
    }

    /** `copy_from(source)`, which is `source->copy_to(this)`. */
    method CopyFrom(source: GraphicsPipeline)
      modifies this`renderPass, this`shaderStages, this`sizeType, this`viewport,
               this`scissor, this`autoSize, this`lineWidth, this`autoLineWidth,
               base`layout
      ensures Config() == old(source.Config())
    {
      source.CopyTo(this);
    }
  }

  /** `compute_pipeline`. */
  class ComputePipeline {
    const base: PipelineBase
    /** `shader_stage`, null until set. */
    var shaderStage: ShaderStage?

    /** `compute_pipeline::make(device, pipeline_cache)`. */
    constructor (device: Option<Handle>, pipelineCache: Option<Handle>)
      ensures fresh(base) && base.device == device && base.pipelineCache == pipelineCache
      ensures base.active && !base.autoBind && base.handle == None && base.layout == null
      ensures shaderStage == null
    {
      base := new PipelineBase(device, pipelineCache);
      shaderStage := null;
    }

    /** `set(stage)`. */
    method Set(stage: ShaderStage?)
      modifies this`shaderStage
      ensures shaderStage == stage
    {
      shaderStage := stage;
    }

    function GetShaderStage(): ShaderStage?
      reads this
    {
      shaderStage
    }

    /** `copy_to(target)`: the layout and the shader stage are copied; the
        target keeps its own native pipeline and its own flags. */
    method CopyTo(target: ComputePipeline)
      modifies target`shaderStage, target.base`layout
      ensures target.shaderStage == old(shaderStage)
      ensures target.base.layout == old(base.layout)
    {
      var stage, layout := shaderStage, base.layout;
      target.base.SetLayout(layout);
      target.shaderStage := stage;
    }

    /** `copy_from(source)`, which is `source->copy_to(this)`. */
    method CopyFrom(source: ComputePipeline)
      modifies this`shaderStage, base`layout
      ensures shaderStage == old(source.shaderStage)
      ensures base.layout == old(source.base.layout)
    {
      source.CopyTo(this);
    }
  }
}
