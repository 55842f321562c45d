/**
 * The ray-marched volumetric-light render feature: recording its unsafe pass
 * on the render graph, and the blit chain the pass emits when the graph runs
 * it (mask extract, seed copy, ping-pong blur, composite).
 *
 * Textures are opaque handles and each blit is one entry of a command log,
 * so the order of the chain, the number of blur iterations and which buffer
 * feeds the composite can be stated and proved.
 */
module VolumetricLight {
  import opened Engine

  /**
   * A render-graph texture handle: the camera's active colour texture, or the
   * transient texture the graph created at position `index` of its list.
   */
  datatype TextureHandle = ActiveColor | Transient(index: nat)

  datatype ColorFormat = ARGB32 | DefaultHDR | OtherFormat(code: int)

  /** The fields of a render-texture descriptor the pass reads or sets. */
  datatype TextureDesc = TextureDesc(
    width: int,
    height: int,
    depthBufferBits: int,
    colorFormat: ColorFormat,
    msaaSamples: int)

  /** A transient texture declared on the render graph. */
  datatype TransientTexture = TransientTexture(name: string, desc: TextureDesc, clear: bool, filter: FilterMode)

  datatype AccessFlags = Read | Write | ReadWrite

  datatype TextureUse = TextureUse(handle: TextureHandle, access: AccessFlags)

  datatype RenderPassEvent = AfterRenderingOpaques | BeforeRenderingTransparents | BeforeRenderingPostProcessing | OtherEvent(order: int)

  /** The shader a blit runs: none (a plain copy), or a sub-pass of the pass's material. */
  datatype BlitShader = PlainCopy | ShaderPass(pass: nat)

  /**
   * One entry of the log a pass execution produces, in program order: a blit
   * recorded on the command buffer, or a float written on the material.
   */
  datatype Command =
    | Blit(src: TextureHandle, dst: TextureHandle, shader: BlitShader)
    | SetFloat(name: string, value: real)

  const BlurRangeProperty: string := "_BlurRange"
  const MissingMaterialMessage: string := "VolumetricLightMaterial == null"
  const LightShaftTextureName: string := "_LightShaftTexture"
  const TempBlurTexture0Name: string := "_TempBlurTexture0"
  const TempBlurTexture1Name: string := "_TempBlurTexture1"

  /** The feature's serialized settings. */
  datatype Settings = Settings(
    renderPassEvent: RenderPassEvent,
    volumetricLightMaterial: Material?,
    loopTimes: int,
    blurRange: real)

  /** The settings a newly added feature starts with. */
  function DefaultSettings(): Settings
  {
    Settings(AfterRenderingOpaques, null, 2, 1.5)
  }

  /** The engine's error console. */
  class Console {
    var errors: seq<string>

    constructor ()
      ensures errors == []
    {
      errors := [];
    }

    method LogError(message: string)
      modifies this
      ensures errors == old(errors) + [message]
    {
      errors := errors + [message];
    }
  }

  /** The per-frame log of blits and material writes. */
  class CommandLog {
    var commands: seq<Command>

    constructor ()
      ensures commands == []
    {
      commands := [];
    }

    method BlitCameraTexture(src: TextureHandle, dst: TextureHandle, shader: BlitShader)
      modifies this
      ensures commands == old(commands) + [Blit(src, dst, shader)]
    {
      commands := commands + [Blit(src, dst, shader)];
    }

    method SetMaterialFloat(name: string, value: real)
      modifies this
      ensures commands == old(commands) + [SetFloat(name, value)]
    {
      commands := commands + [SetFloat(name, value)];
    }
  }

  /** What the pass hands from its record step to its execute step. */
  class PassData {
    var sourceHandle: TextureHandle
    var lightShaftCopy: TextureHandle
    var tempBlur0: TextureHandle
    var tempBlur1: TextureHandle
    var material: Material?
    var loopTimes: int
    var blurRange: real

    constructor (sourceHandle: TextureHandle, lightShaftCopy: TextureHandle,
                 tempBlur0: TextureHandle, tempBlur1: TextureHandle,
                 material: Material?, loopTimes: int, blurRange: real)
      ensures this.sourceHandle == sourceHandle && this.lightShaftCopy == lightShaftCopy
      ensures this.tempBlur0 == tempBlur0 && this.tempBlur1 == tempBlur1
      ensures this.material == material && this.loopTimes == loopTimes && this.blurRange == blurRange
    {
      this.sourceHandle, this.lightShaftCopy := sourceHandle, lightShaftCopy;
      this.tempBlur0, this.tempBlur1 := tempBlur0, tempBlur1;
      this.material, this.loopTimes, this.blurRange := material, loopTimes, blurRange;
    }
  }

  /** A pass as the render graph holds it after recording. */
  datatype RecordedPass = RecordedPass(
    data: PassData,
    uses: seq<TextureUse>,
    allowPassCulling: bool,
    allowGlobalStateModification: bool)

  /** The frame's render graph: the transient textures and passes declared on it so far. */
  class RenderGraph {
    var textures: seq<TransientTexture>
    var passes: seq<RecordedPass>

    constructor ()
      ensures textures == [] && passes == []
    {
      textures, passes := [], [];
    }

    method CreateRenderGraphTexture(desc: TextureDesc, name: string, clear: bool, filter: FilterMode)
      returns (h: TextureHandle)
      modifies this
      ensures textures == old(textures) + [TransientTexture(name, desc, clear, filter)]
      ensures h == Transient(|old(textures)|)
      ensures passes == old(passes)
    {
      h := Transient(|textures|);
      textures := textures + [TransientTexture(name, desc, clear, filter)];
    }

    method AddPass(pass: RecordedPass)
      modifies this
      ensures passes == old(passes) + [pass]
      ensures textures == old(textures)
    {
      passes := passes + [pass];
    }
  }

  /**
   * The descriptor of the three scratch textures: the camera target's,
   * at half width and height (C# integer division), without depth, as ARGB32.
   */
  function HalfResolution(camera: TextureDesc): (r: TextureDesc)
    ensures camera.width >= 0 ==> 0 <= 2 * r.width <= camera.width <= 2 * r.width + 1
    ensures camera.height >= 0 ==> 0 <= 2 * r.height <= camera.height <= 2 * r.height + 1
    ensures r.depthBufferBits == 0 && r.colorFormat == ARGB32
    ensures r.msaaSamples == camera.msaaSamples
  {
    camera.(width := TruncDiv(camera.width, 2), height := TruncDiv(camera.height, 2),
            depthBufferBits := 0, colorFormat := ARGB32)
  }

  /** The texture uses the pass declares: all four textures, read and written. */
  function PassTextureUses(data: PassData): seq<TextureUse>
    reads data
  {
    [TextureUse(data.sourceHandle, ReadWrite), TextureUse(data.lightShaftCopy, ReadWrite),
     TextureUse(data.tempBlur0, ReadWrite), TextureUse(data.tempBlur1, ReadWrite)]
  }

  /** The number of blur iterations: the loop runs for t = 1 .. loopTimes - 1. */
  function BlurIterations(loopTimes: int): nat
  {
    if loopTimes > 1 then loopTimes - 1 else 0
  }

  /** `tempBlur0` after `k` swaps: the buffer blur iteration k (from 0) reads. */
  function BlurInput(b0: TextureHandle, b1: TextureHandle, k: nat): TextureHandle
  {
    if k % 2 == 0 then b0 else b1
  }

  /** `tempBlur1` after `k` swaps: the buffer blur iteration k (from 0) writes. */
  function BlurOutput(b0: TextureHandle, b1: TextureHandle, k: nat): TextureHandle
  {
    if k % 2 == 0 then b1 else b0
  }

  /** The commands of the first `n` blur iterations, starting from the buffers `b0`, `b1`. */
  function BlurSteps(b0: TextureHandle, b1: TextureHandle, n: nat, range: real): seq<Command>
  {
    if n == 0 then []
    else BlurSteps(b0, b1, n - 1, range)
         + [SetFloat(BlurRangeProperty, range), Blit(BlurInput(b0, b1, n - 1), BlurOutput(b0, b1, n - 1), ShaderPass(1))]
  }

  /** The log one execution of the pass appends, as the code is written. */
  function Schedule(src: TextureHandle, shaft: TextureHandle, b0: TextureHandle, b1: TextureHandle,
                    loopTimes: int, range: real): seq<Command>
  {
    var n := BlurIterations(loopTimes);
    [Blit(src, shaft, ShaderPass(0)), Blit(shaft, b0, PlainCopy)]
    + BlurSteps(b0, b1, n, range)
    + [Blit(BlurOutput(b0, b1, n), src, ShaderPass(2))]
  }

  /**
   * The log the pass would append if the composite read the last-written
   * buffer (`tempBlur0` after the swaps) instead of `tempBlur1`.
   */
  function IntendedSchedule(src: TextureHandle, shaft: TextureHandle, b0: TextureHandle, b1: TextureHandle,
                            loopTimes: int, range: real): seq<Command>
  {
    var n := BlurIterations(loopTimes);
    [Blit(src, shaft, ShaderPass(0)), Blit(shaft, b0, PlainCopy)]
    + BlurSteps(b0, b1, n, range)
    + [Blit(BlurInput(b0, b1, n), src, ShaderPass(2))]
  }

  /** The four handles the pass works on are four different textures. */
  predicate DistinctTextures(src: TextureHandle, shaft: TextureHandle, b0: TextureHandle, b1: TextureHandle)
  {
    src != shaft && src != b0 && src != b1 && shaft != b0 && shaft != b1 && b0 != b1
  }

  predicate RunsShaderPass(c: Command, pass: nat)
  {
    c.Blit? && c.shader == ShaderPass(pass)
  }

  /** Blits in `cmds` that run the material's sub-pass `pass`. */
  function CountShaderPass(cmds: seq<Command>, pass: nat): nat
  {
    if cmds == [] then 0
    else CountShaderPass(cmds[..|cmds| - 1], pass)
         + (if RunsShaderPass(cmds[|cmds| - 1], pass) then 1 else 0)
  }

  /** `cmds` holds no blit into `h`. */
  predicate NeverWritten(cmds: seq<Command>, h: TextureHandle)
  {
    forall i :: 0 <= i < |cmds| && cmds[i].Blit? ==> cmds[i].dst != h
  }

  class VolumetricLightPass {
    const renderPassEvent: RenderPassEvent
    const volumetricLightMaterial: Material?
    const loopTimes: int
    const blurRange: real

    constructor (settings: Settings)
      ensures renderPassEvent == settings.renderPassEvent
      ensures volumetricLightMaterial == settings.volumetricLightMaterial
      ensures loopTimes == settings.loopTimes && blurRange == settings.blurRange
    {
      volumetricLightMaterial := settings.volumetricLightMaterial;
      renderPassEvent := settings.renderPassEvent;
      loopTimes := settings.loopTimes;
      blurRange := settings.blurRange;
    }

    /**
     * Records the pass: without a material, logs an error and declares
     * nothing; otherwise declares the three half-resolution scratch textures
     * and one unculled pass that reads and writes all four textures.
     */
    method RecordRenderGraph(graph: RenderGraph, console: Console, cameraTargetDescriptor: TextureDesc)
      returns (data: PassData?)
      modifies graph, console
      ensures volumetricLightMaterial == null ==>
        && data == null
        && console.errors == old(console.errors) + [MissingMaterialMessage]
        && graph.textures == old(graph.textures)
        && graph.passes == old(graph.passes)
      ensures volumetricLightMaterial != null ==>
        && data != null && fresh(data)
        && console.errors == old(console.errors)
        && var desc := HalfResolution(cameraTargetDescriptor);
           var k := |old(graph.textures)|;
        && graph.textures == old(graph.textures)
             + [TransientTexture(LightShaftTextureName, desc, true, Bilinear),
                TransientTexture(TempBlurTexture0Name, desc, true, Bilinear),
                TransientTexture(TempBlurTexture1Name, desc, true, Bilinear)]
        && data.sourceHandle == ActiveColor
        && data.lightShaftCopy == Transient(k)
        && data.tempBlur0 == Transient(k + 1)
        && data.tempBlur1 == Transient(k + 2)
        && data.material == volumetricLightMaterial
        && data.loopTimes == loopTimes && data.blurRange == blurRange
        && graph.passes == old(graph.passes) + [RecordedPass(data, PassTextureUses(data), false, false)]
    {
      if volumetricLightMaterial == null {
        console.LogError(MissingMaterialMessage);
        return null;
      }
      var desc := HalfResolution(cameraTargetDescriptor);
      var lightShaftCopy := graph.CreateRenderGraphTexture(desc, LightShaftTextureName, true, Bilinear);
      var blurDesc := desc;
      var tempBlur0 := graph.CreateRenderGraphTexture(blurDesc, TempBlurTexture0Name, true, Bilinear);
      var tempBlur1 := graph.CreateRenderGraphTexture(blurDesc, TempBlurTexture1Name, true, Bilinear);
      data := new PassData(ActiveColor, lightShaftCopy, tempBlur0, tempBlur1,
                           volumetricLightMaterial, loopTimes, blurRange);
      graph.AddPass(RecordedPass(data, PassTextureUses(data), false, false));
    }
  }

  /**
   * Runs the recorded pass: appends the blit chain to the log and leaves the
   * two blur handles swapped once per blur iteration.
   */
  method ExecutePass(data: PassData, cmd: CommandLog)
    requires data.material != null
    modifies data`tempBlur0, data`tempBlur1, cmd
    ensures cmd.commands == old(cmd.commands)
      + Schedule(data.sourceHandle, data.lightShaftCopy, old(data.tempBlur0), old(data.tempBlur1),
                 data.loopTimes, data.blurRange)
    ensures data.tempBlur0 == BlurInput(old(data.tempBlur0), old(data.tempBlur1), BlurIterations(data.loopTimes))
    ensures data.tempBlur1 == BlurOutput(old(data.tempBlur0), old(data.tempBlur1), BlurIterations(data.loopTimes))
    ensures {data.tempBlur0, data.tempBlur1} == {old(data.tempBlur0), old(data.tempBlur1)}
  {
    ghost var b0, b1 := data.tempBlur0, data.tempBlur1;
    ghost var start := cmd.commands + [Blit(data.sourceHandle, data.lightShaftCopy, ShaderPass(0)),
                                       Blit(data.lightShaftCopy, data.tempBlur0, PlainCopy)];
    cmd.BlitCameraTexture(data.sourceHandle, data.lightShaftCopy, ShaderPass(0));
    cmd.BlitCameraTexture(data.lightShaftCopy, data.tempBlur0, PlainCopy);
    var t := 1;
    while t < data.loopTimes
      invariant 1 <= t && t - 1 <= BlurIterations(data.loopTimes)
      invariant t < data.loopTimes || t - 1 == BlurIterations(data.loopTimes)
      invariant cmd.commands == start + BlurSteps(b0, b1, t - 1, data.blurRange)
      invariant data.tempBlur0 == BlurInput(b0, b1, t - 1)
      invariant data.tempBlur1 == BlurOutput(b0, b1, t - 1)
    {
      cmd.SetMaterialFloat(BlurRangeProperty, data.blurRange);
      cmd.BlitCameraTexture(data.tempBlur0, data.tempBlur1, ShaderPass(1));
      var temRT := data.tempBlur0;
      data.tempBlur0 := data.tempBlur1;
      data.tempBlur1 := temRT;
      t := t + 1;
    }
    cmd.BlitCameraTexture(data.tempBlur1, data.sourceHandle, ShaderPass(2));
  }

  // ---------------------------------------------------------------------
  // Properties of the blur chain
  // ---------------------------------------------------------------------

  /**
   * Blur iteration k sets `_BlurRange`, then blits from `tempBlur0` into
   * `tempBlur1`; after the swap the next iteration reads what this one wrote,
   * and the two buffers are always the same pair.
   */
  lemma {:induction false} BlurStepAt(b0: TextureHandle, b1: TextureHandle, n: nat, range: real, k: nat)
    requires k < n
    ensures |BlurSteps(b0, b1, n, range)| == 2 * n
    ensures BlurSteps(b0, b1, n, range)[2 * k] == SetFloat(BlurRangeProperty, range)
    ensures BlurSteps(b0, b1, n, range)[2 * k + 1] == Blit(BlurInput(b0, b1, k), BlurOutput(b0, b1, k), ShaderPass(1))
    ensures BlurInput(b0, b1, k + 1) == BlurOutput(b0, b1, k)
    ensures BlurOutput(b0, b1, k + 1) == BlurInput(b0, b1, k)
    ensures {BlurInput(b0, b1, k), BlurOutput(b0, b1, k)} == {b0, b1}
  {
    BlurStepsLength(b0, b1, n - 1, range);
    if k < n - 1 {
      BlurStepAt(b0, b1, n - 1, range, k);
    }
  }

  lemma {:induction false} BlurStepsLength(b0: TextureHandle, b1: TextureHandle, n: nat, range: real)
    ensures |BlurSteps(b0, b1, n, range)| == 2 * n
  {
    if n > 0 {
      BlurStepsLength(b0, b1, n - 1, range);
    }
  }

  lemma {:induction false} CountShaderPassAppend(a: seq<Command>, b: seq<Command>, pass: nat)
    ensures CountShaderPass(a + b, pass) == CountShaderPass(a, pass) + CountShaderPass(b, pass)
  {
    if b == [] {
      assert a + b == a;
    } else {
      assert (a + b)[..|a + b| - 1] == a + b[..|b| - 1];
      assert (a + b)[|a + b| - 1] == b[|b| - 1];
      CountShaderPassAppend(a, b[..|b| - 1], pass);
    }
  }

  lemma {:induction false} BlurStepsCount(b0: TextureHandle, b1: TextureHandle, n: nat, range: real, pass: nat)
    ensures CountShaderPass(BlurSteps(b0, b1, n, range), pass) == if pass == 1 then n else 0
  {
    if n > 0 {
      var step := [SetFloat(BlurRangeProperty, range), Blit(BlurInput(b0, b1, n - 1), BlurOutput(b0, b1, n - 1), ShaderPass(1))];
      BlurStepsCount(b0, b1, n - 1, range, pass);
      CountShaderPassAppend(BlurSteps(b0, b1, n - 1, range), step, pass);
      assert step[..1] == [SetFloat(BlurRangeProperty, range)];
      assert step[..1][..0] == [];
      assert CountShaderPass(step[..1], pass) == 0;
      assert CountShaderPass(step, pass) == if pass == 1 then 1 else 0;
    }
  }

  /**
   * The log starts with the mask extract (source into the light-shaft copy,
   * material pass 0) and the plain seed copy into `tempBlur0`, and ends with a
   * material-pass-2 blit into the source; it holds exactly max(0, loopTimes - 1)
   * pass-1 blurs, one pass-0 blit and one pass-2 blit.
   */
  lemma ScheduleShape(src: TextureHandle, shaft: TextureHandle, b0: TextureHandle, b1: TextureHandle,
                      loopTimes: int, range: real)
    ensures var s := Schedule(src, shaft, b0, b1, loopTimes, range);
      && |s| == 2 * BlurIterations(loopTimes) + 3
      && s[0] == Blit(src, shaft, ShaderPass(0))
      && s[1] == Blit(shaft, b0, PlainCopy)
      && s[|s| - 1].Blit? && s[|s| - 1].dst == src && s[|s| - 1].shader == ShaderPass(2)
      && CountShaderPass(s, 1) == (if loopTimes > 1 then loopTimes - 1 else 0)
      && CountShaderPass(s, 0) == 1
      && CountShaderPass(s, 2) == 1
  {
    var n := BlurIterations(loopTimes);
    var head := [Blit(src, shaft, ShaderPass(0)), Blit(shaft, b0, PlainCopy)];
    var last := [Blit(BlurOutput(b0, b1, n), src, ShaderPass(2))];
    var blur := BlurSteps(b0, b1, n, range);
    BlurStepsLength(b0, b1, n, range);
    assert head[..1] == [Blit(src, shaft, ShaderPass(0))];
    assert head[..1][..0] == [];
    assert last[..0] == [];
    forall pass: nat | pass <= 2
      ensures CountShaderPass(head + blur + last, pass)
              == (if pass == 1 then n else 1)
    {
      BlurStepsCount(b0, b1, n, range, pass);
      CountShaderPassAppend(head, blur, pass);
      CountShaderPassAppend(head + blur, last, pass);
    }
  }

  /**
   * Every pass-1 blur blit is immediately preceded by writing `blurRange`
   * to `_BlurRange`, and every such write is immediately followed by a blur.
   */
  lemma BlurRangeSetBeforeEachBlur(src: TextureHandle, shaft: TextureHandle, b0: TextureHandle, b1: TextureHandle,
                                   loopTimes: int, range: real)
    ensures var s := Schedule(src, shaft, b0, b1, loopTimes, range);
      && (forall i :: 0 <= i < |s| && RunsShaderPass(s[i], 1) ==>
            1 <= i && s[i - 1] == SetFloat(BlurRangeProperty, range))
      && (forall i :: 0 <= i < |s| && s[i].SetFloat? ==>
            s[i] == SetFloat(BlurRangeProperty, range) && i + 1 < |s|
            && RunsShaderPass(s[i + 1], 1))
  {
    var s := Schedule(src, shaft, b0, b1, loopTimes, range);
    ScheduleShape(src, shaft, b0, b1, loopTimes, range);
    forall i | 0 <= i < |s| && RunsShaderPass(s[i], 1)
      ensures 1 <= i && s[i - 1] == SetFloat(BlurRangeProperty, range)
    {
      var k := (i - 2) / 2;
      ScheduleBlurAt(src, shaft, b0, b1, loopTimes, range, k);
    }
    forall i | 0 <= i < |s| && s[i].SetFloat?
      ensures s[i] == SetFloat(BlurRangeProperty, range) && i + 1 < |s| && RunsShaderPass(s[i + 1], 1)
    {
      var k := (i - 2) / 2;
      ScheduleBlurAt(src, shaft, b0, b1, loopTimes, range, k);
    }
  }

  /** Blur iteration k occupies positions 2k + 2 (the `_BlurRange` write) and 2k + 3 (the blit). */
  lemma ScheduleBlurAt(src: TextureHandle, shaft: TextureHandle, b0: TextureHandle, b1: TextureHandle,
                       loopTimes: int, range: real, k: int)
    ensures var s := Schedule(src, shaft, b0, b1, loopTimes, range);
      0 <= k < BlurIterations(loopTimes) ==>
        && |s| == 2 * BlurIterations(loopTimes) + 3
        && s[2 * k + 2] == SetFloat(BlurRangeProperty, range)
        && s[2 * k + 3] == Blit(BlurInput(b0, b1, k), BlurOutput(b0, b1, k), ShaderPass(1))
  {
    var n := BlurIterations(loopTimes);
    if 0 <= k < n {
      var s := Schedule(src, shaft, b0, b1, loopTimes, range);
      ScheduleShape(src, shaft, b0, b1, loopTimes, range);
      var blur := BlurSteps(b0, b1, n, range);
      BlurStepAt(b0, b1, n, range, k);
      assert s[2 * k + 2] == blur[2 * k];
      assert s[2 * k + 3] == blur[2 * k + 1];
    }
  }

  /**
   * As written, the composite reads the buffer the last blur iteration read
   * (its input), not the one it wrote; with loopTimes = 2 that is the seed
   * copy, whose only writer is the plain copy from the light-shaft texture.
   */
  lemma CompositeReadsLastBlurInput(src: TextureHandle, shaft: TextureHandle, b0: TextureHandle, b1: TextureHandle,
                                    loopTimes: int, range: real)
    requires loopTimes >= 2
    requires DistinctTextures(src, shaft, b0, b1)
    ensures var s := Schedule(src, shaft, b0, b1, loopTimes, range);
      && s[|s| - 2].Blit? && s[|s| - 2].shader == ShaderPass(1)
      && s[|s| - 1].src == s[|s| - 2].src
      && s[|s| - 1].src != s[|s| - 2].dst
    ensures loopTimes == 2 ==>
      var s := Schedule(src, shaft, b0, b1, loopTimes, range);
      && s[|s| - 1].src == b0
      && forall i :: 0 <= i < |s| - 1 && s[i].Blit? && s[i].dst == b0 ==> s[i] == Blit(shaft, b0, PlainCopy)
  {
    var n := BlurIterations(loopTimes);
    var s := Schedule(src, shaft, b0, b1, loopTimes, range);
    BlurStepAt(b0, b1, n, range, n - 1);
    assert s[|s| - 2] == BlurSteps(b0, b1, n, range)[2 * (n - 1) + 1];
    if loopTimes == 2 {
      assert s == [Blit(src, shaft, ShaderPass(0)), Blit(shaft, b0, PlainCopy),
                   SetFloat(BlurRangeProperty, range), Blit(b0, b1, ShaderPass(1)),
                   Blit(b0, src, ShaderPass(2))];
    }
  }

  /**
   * The settings a new feature starts with: after opaques, no material, two
   * loops, range 1.5. With no material, `RecordRenderGraph` records no pass,
   * so no chain runs. Once a material is assigned, the default loop count and
   * range make the chain blur exactly once and then composite from the seed
   * copy. The single blur's output is never read, so the light shafts are
   * shown unblurred.
   */
  lemma DefaultSettingsDiscardOnlyBlur(src: TextureHandle, shaft: TextureHandle, b0: TextureHandle, b1: TextureHandle)
    requires DistinctTextures(src, shaft, b0, b1)
    ensures DefaultSettings().renderPassEvent == AfterRenderingOpaques
    ensures DefaultSettings().volumetricLightMaterial == null
    ensures DefaultSettings().loopTimes == 2 && DefaultSettings().blurRange == 1.5
    ensures var s := Schedule(src, shaft, b0, b1, DefaultSettings().loopTimes, DefaultSettings().blurRange);
      && CountShaderPass(s, 1) == 1
      && s[|s| - 2] == Blit(b0, b1, ShaderPass(1))
      && s[|s| - 1] == Blit(b0, src, ShaderPass(2))
      && (forall i :: 0 <= i < |s| && s[i].Blit? ==> s[i].src != b1)
      && (forall i :: 0 <= i < |s| - 1 && s[i].Blit? && s[i].dst == b0 ==> s[i] == Blit(shaft, b0, PlainCopy))
  {
    var d := DefaultSettings();
    var s := Schedule(src, shaft, b0, b1, d.loopTimes, d.blurRange);
    ScheduleShape(src, shaft, b0, b1, d.loopTimes, d.blurRange);
    CompositeReadsLastBlurInput(src, shaft, b0, b1, d.loopTimes, d.blurRange);
    assert s == [Blit(src, shaft, ShaderPass(0)), Blit(shaft, b0, PlainCopy),
                 SetFloat(BlurRangeProperty, 1.5), Blit(b0, b1, ShaderPass(1)),
                 Blit(b0, src, ShaderPass(2))];
  }

  /**
   * As written, with loopTimes <= 1 the composite reads `tempBlur1`, a
   * buffer that no blit of the pass writes.
   */
  lemma ShortLoopCompositeReadsUnwritten(src: TextureHandle, shaft: TextureHandle, b0: TextureHandle, b1: TextureHandle,
                                         loopTimes: int, range: real)
    requires loopTimes <= 1
    requires DistinctTextures(src, shaft, b0, b1)
    ensures var s := Schedule(src, shaft, b0, b1, loopTimes, range);
      && s == [Blit(src, shaft, ShaderPass(0)), Blit(shaft, b0, PlainCopy), Blit(b1, src, ShaderPass(2))]
      && NeverWritten(s, b1)
  {
  }

  /**
   * The source is read by the first blit and written only by the final
   * composite: no other blit targets it.
   */
  lemma SourceWrittenOnlyByComposite(src: TextureHandle, shaft: TextureHandle, b0: TextureHandle, b1: TextureHandle,
                                     loopTimes: int, range: real)
    requires DistinctTextures(src, shaft, b0, b1)
    ensures var s := Schedule(src, shaft, b0, b1, loopTimes, range);
      && s[0].src == src
      && s[|s| - 1].dst == src
      && NeverWritten(s[..|s| - 1], src)
  {
    var n := BlurIterations(loopTimes);
    var s := Schedule(src, shaft, b0, b1, loopTimes, range);
    BlurStepsLength(b0, b1, n, range);
    forall i | 2 <= i < |s| - 1 && s[i].Blit?
      ensures s[i].dst != src
    {
      BlurStepAt(b0, b1, n, range, (i - 2) / 2);
    }
  }

  /**
   * As written, for every loopTimes the composite reads a buffer other than
   * the one the blit just before it wrote.
   */
  lemma CompositeNeverReadsLastWritten(src: TextureHandle, shaft: TextureHandle, b0: TextureHandle, b1: TextureHandle,
                                       loopTimes: int, range: real)
    requires DistinctTextures(src, shaft, b0, b1)
    ensures var s := Schedule(src, shaft, b0, b1, loopTimes, range);
      s[|s| - 2].Blit? && s[|s| - 1].src != s[|s| - 2].dst
  {
    if loopTimes >= 2 {
      CompositeReadsLastBlurInput(src, shaft, b0, b1, loopTimes, range);
    }
  }

  /**
   * Composing from `tempBlur0` after the swaps reads the buffer the blit just
   * before the composite wrote: the last blur's output, or the seed copy when
   * no blur runs. The rest of the chain is the same as written.
   */
  lemma IntendedCompositeReadsLastWritten(src: TextureHandle, shaft: TextureHandle, b0: TextureHandle, b1: TextureHandle,
                                          loopTimes: int, range: real)
    ensures var s := IntendedSchedule(src, shaft, b0, b1, loopTimes, range);
      && s[|s| - 2].Blit?
      && s[|s| - 1] == Blit(s[|s| - 2].dst, src, ShaderPass(2))
      && (loopTimes <= 1 ==> s[|s| - 1].src == b0 && s[|s| - 2] == Blit(shaft, b0, PlainCopy))
      && (loopTimes > 1 ==> s[|s| - 2].shader == ShaderPass(1))
    ensures var s := IntendedSchedule(src, shaft, b0, b1, loopTimes, range);
      s[..|s| - 1] == Schedule(src, shaft, b0, b1, loopTimes, range)[..|s| - 1]
  {
    var n := BlurIterations(loopTimes);
    BlurStepsLength(b0, b1, n, range);
    if n > 0 {
      BlurStepAt(b0, b1, n, range, n - 1);
    }
  }
}
