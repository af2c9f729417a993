/** What a caller of liblava/block/pipeline.hpp can rely on, stated on fresh
    objects: the defaults, the flag setters and toggle, the layout and
    render-pass round trips, append-at-end of the ordered lists and copying
    a graphics configuration. Each method builds the objects it talks about,
    so its contract speaks only of the values it reads back. */
module PipelineProperties {
  import opened Wrappers
  import opened Pipeline

  /** A new pipeline is active, not auto-bound, has no layout and is not
      ready, because its native handle starts out null. */
  method FreshPipeline(device: Option<Handle>) returns (active: bool, autoBind: bool, ready: bool, hasLayout: bool)
    ensures active && !autoBind && !ready && !hasLayout
  {
    var p := new PipelineBase(device, None);
    active, autoBind, ready, hasLayout := p.IsActive(), p.IsAutoBind(), p.IsReady(), p.GetLayout() != null;
  }

  /** One toggle negates `active`, a second restores it. */
  method ToggleTwice(initial: bool) returns (afterOne: bool, afterTwo: bool)
    ensures afterOne == !initial
    ensures afterTwo == initial
  {
    var p := new PipelineBase(None, None);
    p.SetActive(initial);
    p.Toggle();
    afterOne := p.IsActive();
    p.Toggle();
    afterTwo := p.IsActive();
  }

  /** `active` and `auto_bind` are independent: setting one leaves the other. */
  method FlagsIndependent(active: bool, autoBind: bool) returns (gotActive: bool, gotAutoBind: bool, gotActiveAgain: bool)
    ensures gotActive == active && gotAutoBind == autoBind && gotActiveAgain == active
  {
    var p := new PipelineBase(None, None);
    p.SetActive(active);
    p.SetAutoBind(autoBind);
    gotAutoBind := p.IsAutoBind();
    gotActive := p.IsActive();
    p.SetAutoBind(!autoBind);
    gotActiveAgain := p.IsActive();
  }

  /** `set_layout(l)` then `get_layout()` gives `l` back, and a pipeline with
      a layout but no native pipeline is still not ready. */
  method LayoutRoundTrip(layout: PipelineLayout?) returns (got: PipelineLayout?, ready: bool)
    ensures got == layout && !ready
  {
    var p := new PipelineBase(None, None);
    p.SetLayout(layout);
    got, ready := p.GetLayout(), p.IsReady();
  }

  /** `is_ready()` follows the native handle through create and destroy. */
  method ReadyFollowsHandle(built: Option<Handle>) returns (ok: bool, readyAfterCreate: bool, readyAfterDestroy: bool)
    ensures ok == built.Some? && readyAfterCreate == ok && !readyAfterDestroy
  {
    var p := new PipelineBase(None, None);
    ok := p.Create(built);
    readyAfterCreate := p.IsReady();
    p.Destroy();
    p.Destroy();
    readyAfterDestroy := p.IsReady();
  }

  /** Descriptors and ranges are kept in the order they were added, each in
      its own list, whichever of the `add` spellings is used. */
  method LayoutKeepsOrder(d1: Descriptor, d2: Descriptor, r: PushConstantRange)
    returns (descriptors: seq<Descriptor>, ranges: seq<PushConstantRange>)
    ensures descriptors == [d1, d2] && ranges == [r]
  {
    var l := new PipelineLayout();
    l.AddDescriptor(d1);
    l.AddRange(r);
    l.AddLayout(d2);
    descriptors, ranges := l.GetDescriptors(), l.GetPushConstantRanges();
  }

  /** A new graphics pipeline: size type `input`, auto size on, automatic
      line width off, line width 1, no stages, no render pass, not ready. */
  method GraphicsDefaults(device: Option<Handle>)
    returns (sizeType: SizeType, autoSize: bool, autoLineWidth: bool, lineWidth: Float32,
             stages: seq<ShaderStage>, pass: Option<Handle>, ready: bool, active: bool)
    ensures sizeType == Input && autoSize && !autoLineWidth && lineWidth == ONE_F32
    ensures stages == [] && pass == None && !ready && active
  {
    var g := new GraphicsPipeline(device, None);
    sizeType, autoSize, autoLineWidth, lineWidth := g.GetSizeType(), g.IsAutoSize(), g.IsAutoLineWidth(), g.GetLineWidth();
    stages, pass, ready, active := g.GetShaderStages(), g.GetRenderPass(), g.base.IsReady(), g.base.IsActive();
  }

  /** Shader stages are kept in the order added; clearing empties the list. */
  method StagesInOrder(vertex: ShaderStage, fragment: ShaderStage)
    returns (stages: seq<ShaderStage>, cleared: seq<ShaderStage>)
    ensures stages == [vertex, fragment] && cleared == []
  {
    var g := new GraphicsPipeline(None, None);
    g.AddShaderStage(vertex);
    g.AddShaderStage(fragment);
    stages := g.GetShaderStages();
    g.ClearShaderStages();
    cleared := g.GetShaderStages();
  }

  /** `create(pass)` leaves the given render pass set, whether or not the
      native pipeline could be built, and readiness follows the result. */
  method CreateSetsRenderPass(pass: Option<Handle>, built: Option<Handle>)
    returns (ok: bool, gotPass: Option<Handle>, ready: bool)
    ensures gotPass == pass && ready == ok && ok == built.Some?
  {
    var g := new GraphicsPipeline(None, None);
    ok := g.Create(pass, built);
    gotPass, ready := g.GetRenderPass(), g.base.IsReady();
  }

  /** The viewport, scissor, size-type, auto-size and line-width setters each
      round-trip through their getters. */
  method GraphicsSettersRoundTrip(viewport: Viewport, scissor: Rect2D, sizeType: SizeType,
                                  autoSize: bool, lineWidth: Float32, autoLineWidth: bool)
    returns (config: GraphicsConfig)
    ensures config.viewport == viewport && config.scissor == scissor && config.sizeType == sizeType
    ensures config.autoSize == autoSize && config.lineWidth == lineWidth && config.autoLineWidth == autoLineWidth
  {
    var g := new GraphicsPipeline(None, None);
    g.SetViewport(viewport);
    g.SetScissor(scissor);
    g.SetSizeType(sizeType);
    g.SetAutoSize(autoSize);
    g.SetLineWidth(lineWidth);
    g.SetAutoLineWidth(autoLineWidth);
    config := GraphicsConfig(g.base.GetLayout(), g.GetRenderPass(), g.GetShaderStages(), g.GetSizeType(),
                             g.GetViewport(), g.GetScissor(), g.IsAutoSize(), g.GetLineWidth(), g.IsAutoLineWidth());
  }

  /** A pipeline derived with `copy_from` has the template's configuration but
      stays unbuilt and keeps its own flags, while the template keeps its own
      native pipeline. */
  method DeriveVariant(template: GraphicsPipeline, device: Option<Handle>)
    returns (variantConfig: GraphicsConfig, variantReady: bool, variantActive: bool, templateReady: bool)
    ensures variantConfig == old(template.Config())
    ensures !variantReady && variantActive
    ensures templateReady == old(template.base.IsReady())
  {
    var variant := new GraphicsPipeline(device, None);
    variant.CopyFrom(template);
    variantConfig, variantReady, variantActive := variant.Config(), variant.base.IsReady(), variant.base.IsActive();
    templateReady := template.base.IsReady();
  }

  /** A compute pipeline copied from another has its stage and layout. */
  method DeriveCompute(stage: ShaderStage?, layout: PipelineLayout?)
    returns (gotStage: ShaderStage?, gotLayout: PipelineLayout?, ready: bool)
    ensures gotStage == stage && gotLayout == layout && !ready
  {
    var source := new ComputePipeline(None, None);
    source.Set(stage);
    source.base.SetLayout(layout);
    var target := new ComputePipeline(None, None);
    target.CopyFrom(source);
    gotStage, gotLayout, ready := target.GetShaderStage(), target.base.GetLayout(), target.base.IsReady();
  }
}
