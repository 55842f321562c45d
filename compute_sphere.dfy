/**
 * The compute-shader sphere renderer: it creates its output texture once,
 * dispatches the sphere kernel every frame over a grid of thread groups
 * sized by C# integer division, and copies the texture onto each camera's
 * target once that camera has finished rendering.
 */
module ComputeSphere {
  import opened Engine

  datatype GraphicsFormat = R32G32B32A32_SFloat | R8G8B8A8_UNorm | OtherGraphicsFormat(code: int)

  /** A render texture the script creates and owns. */
  class RenderTexture {
    const width: int
    const height: int
    const depth: int
    const format: GraphicsFormat
    var filterMode: FilterMode
    var name: string
    var enableRandomWrite: bool
    var created: bool

    constructor (width: int, height: int, depth: int, format: GraphicsFormat)
      ensures this.width == width && this.height == height && this.depth == depth && this.format == format
      ensures name == "" && !enableRandomWrite && !created
    {
      this.width, this.height, this.depth, this.format := width, height, depth, format;
      filterMode, name, enableRandomWrite, created := Bilinear, "", false, false;
    }

    /** Allocates the texture on the GPU. */
    method Create()
      modifies this
      ensures created
      ensures filterMode == old(filterMode) && name == old(name) && enableRandomWrite == old(enableRandomWrite)
    {
      created := true;
    }
  }

  /** The screen's size in pixels. */
  datatype Screen = Screen(width: nat, height: nat)

  /** The thread-group size a kernel declares. */
  datatype ThreadGroupSize = ThreadGroupSize(x: nat, y: nat, z: nat)

  /** The number of thread groups a dispatch launches along each axis. */
  datatype GroupCounts = GroupCounts(x: int, y: int, z: int)

  /** A call made on the compute shader, in program order. */
  datatype ComputeCall =
    | SetTexture(kernel: int, name: string, texture: RenderTexture)
    | SetFloat(name: string, value: real)
    | SetVector2(name: string, x: int, y: int)
    | Dispatch(kernel: int, groups: GroupCounts)

  class ComputeShader {
    var calls: seq<ComputeCall>

    constructor ()
      ensures calls == []
    {
      calls := [];
    }

    method Record(call: ComputeCall)
      modifies this
      ensures calls == old(calls) + [call]
    {
      calls := calls + [call];
    }
  }

  /** Where a camera renders: the back buffer, or a target texture. */
  datatype CameraTarget = BackBuffer | TargetTexture(texture: Texture)

  /** The engine's immediate blits onto camera targets. */
  class Graphics {
    var blits: seq<(RenderTexture, CameraTarget)>

    constructor ()
      ensures blits == []
    {
      blits := [];
    }

    method Blit(source: RenderTexture, dest: CameraTarget)
      modifies this
      ensures blits == old(blits) + [(source, dest)]
    {
      blits := blits + [(source, dest)];
    }
  }

  const ResultProperty: string := "_Result"
  const SphereRadiusProperty: string := "_SphereRadius"
  const ScreenResolutionProperty: string := "_ScreenResolution"
  const RenderTextureName: string := "_DrawSphereRT"
  const RenderTextureDepth: int := 24

  /**
   * The thread groups dispatched for a screen: each axis's pixel count
   * divided by the group size with C# integer division, and one group in z.
   * The grid never reaches past the screen, and falls short of it on each
   * axis by less than one group.
   */
  function DispatchGroups(width: nat, height: nat, size: ThreadGroupSize): (g: GroupCounts)
    requires size.x > 0 && size.y > 0
    ensures g.z == 1
    ensures g.x >= 0 && g.y >= 0
    ensures g.x * size.x <= width < g.x * size.x + size.x
    ensures g.y * size.y <= height < g.y * size.y + size.y
  {
    TruncDivOfNatural(width, size.x);
    TruncDivOfNatural(height, size.y);
    GroupCounts(TruncDiv(width, size.x), TruncDiv(height, size.y), 1)
  }

  /**
   * The grid covers the screen exactly iff the resolution is a multiple of
   * the group size on both axes; otherwise the uncovered strip on each axis
   * is the remainder of that division.
   */
  lemma ExactCoverageIff(width: nat, height: nat, size: ThreadGroupSize)
    requires size.x > 0 && size.y > 0
    ensures var g := DispatchGroups(width, height, size);
      && width - g.x * size.x == width % size.x
      && height - g.y * size.y == height % size.y
      && (g.x * size.x == width && g.y * size.y == height <==> width % size.x == 0 && height % size.y == 0)
  {
    var g := DispatchGroups(width, height, size);
    TruncDivOfNatural(width, size.x);
    TruncDivOfNatural(height, size.y);
    assert width == (width / size.x) * size.x + width % size.x;
    assert height == (height / size.y) * size.y + height % size.y;
  }

  class DrawSphereByCS {
    const computeShader: ComputeShader
    const sphereRadius: real
    var renderTexture: RenderTexture?
    var kernelID: int

    constructor (computeShader: ComputeShader, sphereRadius: real)
      ensures this.computeShader == computeShader && this.sphereRadius == sphereRadius
      ensures renderTexture == null
    {
      this.computeShader, this.sphereRadius := computeShader, sphereRadius;
      renderTexture, kernelID := null, 0;
    }

    /**
     * Creates the screen-sized output texture if there is none yet, then
     * binds it and the constants on the kernel `kernel` (the index the
     * shader reports for "DrawSphere").
     */
    method Start(screen: Screen, kernel: int)
      modifies this`renderTexture, this`kernelID, computeShader
      ensures renderTexture != null
      ensures old(renderTexture) != null ==> renderTexture == old(renderTexture) && unchanged(renderTexture)
      ensures old(renderTexture) == null ==>
        && fresh(renderTexture)
        && renderTexture.width == screen.width && renderTexture.height == screen.height
        && renderTexture.depth == RenderTextureDepth && renderTexture.format == R32G32B32A32_SFloat
        && renderTexture.filterMode == Bilinear && renderTexture.name == RenderTextureName
        && renderTexture.enableRandomWrite && renderTexture.created
      ensures kernelID == kernel
      ensures computeShader.calls == old(computeShader.calls)
        + [SetTexture(kernel, ResultProperty, renderTexture),
           SetFloat(SphereRadiusProperty, sphereRadius),
           SetVector2(ScreenResolutionProperty, screen.width, screen.height)]
    {
      if renderTexture == null {
        var rt := new RenderTexture(screen.width, screen.height, RenderTextureDepth, R32G32B32A32_SFloat);
        rt.filterMode := Bilinear;
        rt.name := RenderTextureName;
        rt.enableRandomWrite := true;
        rt.Create();
        renderTexture := rt;
      }
      kernelID := kernel;
      computeShader.Record(SetTexture(kernelID, ResultProperty, renderTexture));
      computeShader.Record(SetFloat(SphereRadiusProperty, sphereRadius));
      computeShader.Record(SetVector2(ScreenResolutionProperty, screen.width, screen.height));
    }

    /** Dispatches the kernel over the screen with the kernel's declared group size. */
    method Update(screen: Screen, groupSize: ThreadGroupSize)
      requires groupSize.x > 0 && groupSize.y > 0
      modifies computeShader
      ensures computeShader.calls == old(computeShader.calls)
        + [Dispatch(kernelID, DispatchGroups(screen.width, screen.height, groupSize))]
    {
      var groups := GroupCounts(TruncDiv(screen.width, groupSize.x), TruncDiv(screen.height, groupSize.y), 1);
      computeShader.Record(Dispatch(kernelID, groups));
    }

    /** At the end of a camera's rendering, copies the texture onto its target, if the texture exists. */
    method DrawSphere(graphics: Graphics, cameraTarget: CameraTarget)
      modifies graphics
      ensures renderTexture != null ==> graphics.blits == old(graphics.blits) + [(renderTexture, cameraTarget)]
      ensures renderTexture == null ==> graphics.blits == old(graphics.blits)
    {
      if renderTexture != null {
        graphics.Blit(renderTexture, cameraTarget);
      }
    }
  }
}
