# Ray-marching render features: the schedulable core, in Dafny

The repository adds custom passes to Unity's Universal Render Pipeline. Most
of it binds uniforms and calls engine blits. This project models the three
pieces that hold logic of their own and proves what they do:

- **The volumetric-light pass** (`RayMarchingVolumetricLightRendererFeature`),
  in `volumetric_light.dfy`.
  - Recording. Without a material the pass logs an error and declares nothing.
    Otherwise it declares three half-resolution scratch textures and one
    unculled pass.
  - Execution. The pass emits a fixed blit chain: a mask extract (material
    pass 0), a plain seed copy, `loopTimes - 1` ping-pong blurs (material
    pass 1) that swap the two blur handles after each blur, and a composite
    (material pass 2) back into the camera colour texture.
  - Representation. Textures are opaque render-graph handles. Every blit and
    every `_BlurRange` write is one entry of a command log. `ExecutePass` is
    proved to append exactly `Schedule(...)`, and the lemmas state the order,
    the iteration count and which buffer feeds the composite.
- **The two sphere collectors** (`RayMarchingObjsManager.RefreshTransforms`).
  - The Vector4 packer (`objs_manager.dfy`) reuses its array when the length
    still matches. It writes `(position.xyz, localScale.x)` for each transform.
  - The struct packer (`basic_objs_manager.dfy`) fills a fresh struct array on
    every call. It allocates its GPU buffer on the first call only, then binds
    the buffer, and the reflection cubemap when a probe is set, on the material.
- **The compute-shader sphere renderer** (`DrawSphereByCS`), in
  `compute_sphere.dfy`. It creates its texture once. Its dispatch grid is
  computed by C# integer division, so it never over-covers the screen and
  falls short by less than one group per axis. It copies the texture to the
  camera target only when the texture exists.

`engine.dfy` holds the engine types these share. It also holds `TruncDiv`, a
model of C#'s `int` division, which rounds toward zero.

Where the code departs from what the passes are evidently designed to do, this model follows the code:
- The composite reads `tempBlur1` after the swaps. It does not read the
  last-written buffer (see Findings).

The dispatch grid truncates. When the screen size is not a multiple of the
group size, it leaves a strip of less than one group uncovered on that axis
(`ComputeSphere.ExactCoverageIff`). Whether the kernel relies on exact
multiples cannot be told from the script alone, so this is recorded as
behaviour, not as a defect.

## Model

| member | source | states |
|---|---|---|
| `VolumetricLight.VolumetricLightPass.constructor` | Assets/RayMarching/VolumetricLight/RayMarchingVolumetricLightRendererFeature.cs:34-40 | The pass takes material, event, loop count and blur range from the settings |
| `VolumetricLight.VolumetricLightPass.RecordRenderGraph` | Assets/RayMarching/VolumetricLight/RayMarchingVolumetricLightRendererFeature.cs:58-100 | A null material logs "VolumetricLightMaterial == null" and adds no texture and no pass. Otherwise the pass declares three textures with one half-resolution descriptor, gives them distinct fresh handles, uses the camera colour texture as source, and records one pass. That pass reads and writes all four textures, and culling and global-state changes are off |
| `VolumetricLight.HalfResolution` | Assets/RayMarching/VolumetricLight/RayMarchingVolumetricLightRendererFeature.cs:71-84 | The scratch descriptor's width and height are the camera's halved, rounded down, for non-negative sizes. It has no depth buffer, is ARGB32, and keeps the MSAA sample count |
| `VolumetricLight.ExecutePass` | Assets/RayMarching/VolumetricLight/RayMarchingVolumetricLightRendererFeature.cs:102-120 | The log grows by exactly `Schedule` of the pass data. Afterwards the blur handles have been swapped once per iteration and are still the same two buffers |
| `VolumetricLight.BlurStepAt` | Assets/RayMarching/VolumetricLight/RayMarchingVolumetricLightRendererFeature.cs:111-117 | Blur iteration k writes `_BlurRange`, then blits pass 1 from the current `tempBlur0` into `tempBlur1`. After the swap the next iteration reads what this one wrote, and the pair is always {tempBlur0, tempBlur1} |
| `VolumetricLight.ScheduleBlurAt` | Assets/RayMarching/VolumetricLight/RayMarchingVolumetricLightRendererFeature.cs:111-117 | In the full log, iteration k sits at positions 2k+2 and 2k+3 |
| `VolumetricLight.BlurStepsCount` | Assets/RayMarching/VolumetricLight/RayMarchingVolumetricLightRendererFeature.cs:111-114 | n iterations hold exactly n pass-1 blits and no other material pass |
| `VolumetricLight.ScheduleShape` | Assets/RayMarching/VolumetricLight/RayMarchingVolumetricLightRendererFeature.cs:109-119 | The log starts with source to light-shaft copy (pass 0), then a plain copy into `tempBlur0`, and ends with a pass-2 blit into the source. It holds max(0, loopTimes-1) pass-1 blits, one pass-0 blit and one pass-2 blit |
| `VolumetricLight.BlurRangeSetBeforeEachBlur` | Assets/RayMarching/VolumetricLight/RayMarchingVolumetricLightRendererFeature.cs:111-114 | Each pass-1 blit comes right after `_BlurRange` is set to `blurRange`. Each such write comes right before a pass-1 blit |
| `VolumetricLight.CompositeReadsLastBlurInput` | Assets/RayMarching/VolumetricLight/RayMarchingVolumetricLightRendererFeature.cs:111-119 | For loopTimes >= 2 the composite reads the last blur's input, not its output. For loopTimes = 2 that is the seeded copy, whose only writer is the plain copy |
| `VolumetricLight.DefaultSettingsDiscardOnlyBlur` | Assets/RayMarching/VolumetricLight/RayMarchingVolumetricLightRendererFeature.cs:11-14 | The defaults are AfterRenderingOpaques, no material, two loops and range 1.5. With no material, `RecordRenderGraph` records no pass, so nothing runs until a material is assigned. Once one is, the default loop count and range give a chain with exactly one blur (b0 into b1) that then composites from b0. No blit reads b1, so the only blur is discarded, and b0 is written only by the plain seed copy |
| `VolumetricLight.ShortLoopCompositeReadsUnwritten` | Assets/RayMarching/VolumetricLight/RayMarchingVolumetricLightRendererFeature.cs:109-119 | For loopTimes <= 1 the log is extract, copy, composite from `_TempBlurTexture1`, and no blit writes that texture |
| `VolumetricLight.SourceWrittenOnlyByComposite` | Assets/RayMarching/VolumetricLight/RayMarchingVolumetricLightRendererFeature.cs:109-119 | The first blit reads the source. Only the final composite writes it |
| `VolumetricLight.CompositeNeverReadsLastWritten` | Assets/RayMarching/VolumetricLight/RayMarchingVolumetricLightRendererFeature.cs:110-119 | For every loopTimes, the composite reads a buffer other than the one the blit just before it wrote |
| `VolumetricLight.IntendedCompositeReadsLastWritten` | Assets/RayMarching/VolumetricLight/RayMarchingVolumetricLightRendererFeature.cs:110-119 | If the composite read `tempBlur0` after the swaps, it would read the buffer the preceding blit wrote: the last blur's output, or the seed copy when no blur runs. Everything before the composite stays the same |
| `ObjsManager.PackedAt` | Assets/RayMarching/RayMarchingObjsManager.cs:54-61 | Packed element i is (position.x, position.y, position.z, localScale.x) of transform i, and the packed length equals the transform count |
| `ObjsManager.PackedIgnoresScaleYZ` | Assets/RayMarching/RayMarchingObjsManager.cs:56-60 | Transforms that agree on position and x scale pack identically: y and z scale and rotation have no effect |
| `ObjsManager.RayMarchingObjsManager.RefreshTransforms` | Assets/RayMarching/RayMarchingObjsManager.cs:48-62 | Requires a non-null transform array. Afterwards `Spheres.Length == SphereTransforms.Length` and `Spheres` holds the packed transforms. An array of the right length is reused; otherwise a fresh one is allocated, and the array held before is left as it was. The transforms are not modified |
| `ObjsManager.RefreshTwice` | Assets/RayMarching/RayMarchingObjsManager.cs:48-62 | Two refreshes with unchanged transforms leave identical contents and leave the transforms untouched |
| `BasicObjsManager.SphereFloats` | Assets/RayMarching/RayMarchingBasic/RayMarchingObjsManager.cs:41-47 | The floats of any `Sphere` struct, field by field, fill exactly the buffer stride `sizeof(float) * 25`. The three Vector3 fields give 3 floats each, and the rotation matrix gives 16, because `Matrix4x4` holds exactly sixteen entries |
| `BasicObjsManager.PackedSpheresAt` | Assets/RayMarching/RayMarchingBasic/RayMarchingObjsManager.cs:65-74 | The struct array has one entry per tracked sphere. Entry i holds the world position, the whole localScale as radius, the base colour's r, g, b, and the rotation matrix of the rotation |
| `BasicObjsManager.PackedSpheresIgnoreAlpha` | Assets/RayMarching/RayMarchingBasic/RayMarchingObjsManager.cs:68-70 | The base colour's alpha never reaches the packed structs |
| `BasicObjsManager.RayMarchingObjsManager.RefreshTransforms` | Assets/RayMarching/RayMarchingBasic/RayMarchingObjsManager.cs:63-87 | The buffer is allocated only while null, as a structured buffer sized for this call's count with stride 25 floats. Later calls keep it, whatever the count. The packed spheres are uploaded. `_SphereBuffer` is bound on every call; `_Reflection_CubeMap` is bound only when a probe is set. Nothing else on the material changes |
| `ComputeSphere.DispatchGroups` | Assets/RrayMarching/DrawSphereByCS.cs:66-68 | Z is 1. X·gx <= width < X·gx + gx and Y·gy <= height < Y·gy + gy: the grid never over-dispatches and falls short by less than one group per axis |
| `ComputeSphere.ExactCoverageIff` | Assets/RrayMarching/DrawSphereByCS.cs:68 | The uncovered strip on each axis is resolution mod group size. Coverage is exact iff both resolutions are multiples of the group sizes |
| `ComputeSphere.DrawSphereByCS.Start` | Assets/RrayMarching/DrawSphereByCS.cs:33-48 | The screen-sized R32G32B32A32 texture (depth 24, bilinear, "_DrawSphereRT", random write, created) is made only when none exists; an existing one is kept unchanged. Then `_Result`, `_SphereRadius` and `_ScreenResolution` are bound for the kernel |
| `ComputeSphere.DrawSphereByCS.Update` | Assets/RrayMarching/DrawSphereByCS.cs:66-68 | Records exactly one dispatch of the kernel with `DispatchGroups` of the screen and the kernel's group size |
| `ComputeSphere.DrawSphereByCS.DrawSphere` | Assets/RrayMarching/DrawSphereByCS.cs:71-77 | Blits the texture to the camera target when the texture exists; otherwise does nothing |
| `Engine.TruncDiv` | Assets/RrayMarching/DrawSphereByCS.cs:68 | C# `int` division: the quotient's magnitude is the largest whole number of divisors that fits, and a non-zero quotient is negative iff the operands' signs differ |
| `Engine.TruncDivOfNatural` | Assets/RayMarching/VolumetricLight/RayMarchingVolumetricLightRendererFeature.cs:72-73 | On non-negative operands C# division is floor division |

## Findings

| source | as written | input that shows it | evidently intended | confidence | as-written member | corrected member |
|---|---|---|---|---|---|---|
| Assets/RayMarching/VolumetricLight/RayMarchingVolumetricLightRendererFeature.cs:119 | The composite blits from `data.tempBlur1` after the swaps. That is the input of the last blur, so the last blur's output is discarded. With loopTimes <= 1 it is `_TempBlurTexture1`, which nothing in the pass wrote | loopTimes = 2, the default setting: the composite reads the unblurred seed copy (`VolumetricLight.DefaultSettingsDiscardOnlyBlur`). loopTimes = 1: it reads a texture that is never written | The composite reads `data.tempBlur0`, the buffer the last blit wrote (the seed copy when no blur runs) | high; not executed | `VolumetricLight.CompositeNeverReadsLastWritten` (with `VolumetricLight.Schedule`) | `VolumetricLight.IntendedCompositeReadsLastWritten` (with `VolumetricLight.IntendedSchedule`) |

`ExecutePass` still models the code as written. `IntendedSchedule` differs from
`Schedule` only in the composite's source.

## Left out

- The other render features (the blitter, the basic ray-marching feature, the screen-space volumetric light, the draw-objects override pass) are not part of this model. They are a null check and straight-line engine calls.
- The screen-space feature's sun viewport position and attenuation, and the frustum-corner computation, are left out. They are floating-point vector maths over engine camera data.
- The shader-template editor window is left out. It does file I/O and asset-database refreshes.
- The singleton `Instance` getters and `Awake` in both collectors are left out. They depend on the engine's scene-object lookup and object destruction.
- GPU execution is left out: what the shaders compute, render-graph compilation and culling, and command submission. The log records what is submitted, in order.
- The feature's `Create` and `AddRenderPasses` are left out. They build the pass and enqueue it with the host renderer. Building is the pass constructor here.
- The `endCameraRendering` subscription in `OnEnable`/`OnDisable` is left out; `DrawSphere` is modelled as the callback itself.
- The camera-matrix, sphere-position, light-direction and camera-position uploads in `Update` are left out. They are engine matrix maths; only the dispatch is modelled.
- `FindKernel` and `GetKernelThreadGroupSizes` are engine calls. Their results are parameters of `Start` and `Update`.
- `Matrix4x4.Rotate` is engine code. It is the parameter `rotate` of the struct packer, applied to each sphere's rotation.
- Floats are modelled as `real`. They are only copied, so no rounding arises.
- `SetFloat("_BlurRange", ...)` is recorded as an entry in the same log as the blits, in program order. It is not modelled as material state.
- Transforms and tracked sphere components are read as values. Null elements in the transform or sphere arrays (a NullReferenceException in the source) are not modelled.
- ObjsManager.RayMarchingObjsManager.RefreshTransforms: requires the transform array to be non-null, because the source reads its `Length` unconditionally and would throw.
- BasicObjsManager.RayMarchingObjsManager.RefreshTransforms: requires the sphere array and the material to be non-null, because the source dereferences both unconditionally. The engine's own checks are not modelled: the exception for a zero-length buffer, and `SetData` bounds when the sphere count later differs from the buffer's count. The model records the upload and keeps the first call's count.
- VolumetricLight.ExecutePass: requires a non-null material. The render graph only runs passes that `RecordRenderGraph` recorded, and it records one only with a material.
- ComputeSphere.DrawSphereByCS.Start: assumes the serialized compute shader is assigned (`computeShader` is a non-null field). In the source, an unassigned shader throws at `FindKernel` after the texture is created, before `kernelID` is set or anything is bound.
- ComputeSphere.DrawSphereByCS.Update: assumes the compute shader, a camera tagged MainCamera and the directional light are all present. In the source, a missing one throws during the uniform uploads, before the dispatch, and nothing is dispatched that frame.
- Screen sizes are natural numbers. Thread-group sizes are positive naturals, so the source's `(int)` cast of the engine's unsigned group sizes is the identity here.
- Integers are unbounded. The sizes involved are far below the 32-bit limit, so C#'s `int` overflow never arises.
- Only the descriptor fields the pass reads or sets are modelled: width, height, depth bits, colour format and MSAA samples.
