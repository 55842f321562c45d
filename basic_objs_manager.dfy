/**
 * The sphere collector that feeds the ray-marching material through a
 * structured GPU buffer. Every refresh packs each tracked sphere into a
 * fresh struct array (position, full scale as radius, base colour without
 * alpha, rotation matrix), uploads it to a buffer allocated on the first
 * refresh only, and binds the buffer and the reflection cubemap on the
 * material.
 */
module BasicObjsManager {
  import opened Engine

  /** The struct uploaded per sphere, in field order. */
  datatype Sphere = Sphere(position: Vector3, radius: Vector3, color: Vector3, rotationMatrix: Matrix4x4)

  /** A tracked sphere object: its base colour and its transform. */
  datatype RayMarchingSphere = RayMarchingSphere(sphereBaseColor: Color, transform: Transform)

  /** A reflection probe; only the cubemap it baked is read. */
  class ReflectionProbe {
    const texture: Texture

    constructor (texture: Texture)
      ensures this.texture == texture
    {
      this.texture := texture;
    }
  }

  const SphereBufferProperty: string := "_SphereBuffer"
  const ReflectionCubeMapProperty: string := "_Reflection_CubeMap"

  /** The stride the buffer is created with: `sizeof(float) * 25` bytes. */
  const SphereStride: nat := SizeOfFloat * 25

  /**
   * The floats of one Sphere struct as the GPU reads them, field by field
   * (position, radius, color, rotationMatrix): exactly as many as the
   * buffer's stride holds.
   */
  function SphereFloats(s: Sphere): (fs: seq<real>)
    ensures SizeOfFloat * |fs| == SphereStride
  {
    [s.position.x, s.position.y, s.position.z]
    + [s.radius.x, s.radius.y, s.radius.z]
    + [s.color.x, s.color.y, s.color.z]
    + s.rotationMatrix.entries
  }

  /** The struct one tracked sphere packs into; `rotate` is the engine's Matrix4x4.Rotate. */
  function PackSphere(s: RayMarchingSphere, rotate: Quaternion -> Matrix4x4): Sphere
  {
    var c := s.sphereBaseColor;
    var t := s.transform;
    Sphere(t.position, Vector3(t.localScale.x, t.localScale.y, t.localScale.z), Vector3(c.r, c.g, c.b), rotate(t.rotation))
  }

  /** The struct array a refresh builds from the tracked spheres. */
  function PackedSpheres(ss: seq<RayMarchingSphere>, rotate: Quaternion -> Matrix4x4): seq<Sphere>
  {
    if ss == [] then [] else PackedSpheres(ss[..|ss| - 1], rotate) + [PackSphere(ss[|ss| - 1], rotate)]
  }

  lemma {:induction false} PackedSpheresLength(ss: seq<RayMarchingSphere>, rotate: Quaternion -> Matrix4x4)
    ensures |PackedSpheres(ss, rotate)| == |ss|
  {
    if ss != [] {
      PackedSpheresLength(ss[..|ss| - 1], rotate);
    }
  }

  /**
   * Element i holds sphere i's world position, its whole local scale as the
   * radius, the r, g, b of its base colour (alpha dropped) and the rotation
   * matrix of its rotation.
   */
  lemma {:induction false} PackedSpheresAt(ss: seq<RayMarchingSphere>, rotate: Quaternion -> Matrix4x4, i: int)
    requires 0 <= i < |ss|
    ensures |PackedSpheres(ss, rotate)| == |ss|
    ensures var p := PackedSpheres(ss, rotate)[i];
      var t := ss[i].transform;
      && p.position == t.position
      && p.radius == t.localScale
      && p.color == Vector3(ss[i].sphereBaseColor.r, ss[i].sphereBaseColor.g, ss[i].sphereBaseColor.b)
      && p.rotationMatrix == rotate(t.rotation)
  {
    PackedSpheresLength(ss[..|ss| - 1], rotate);
    if i < |ss| - 1 {
      PackedSpheresAt(ss[..|ss| - 1], rotate, i);
    }
  }

  /** The alpha of a base colour never reaches the packed structs. */
  lemma {:induction false} PackedSpheresIgnoreAlpha(ss: seq<RayMarchingSphere>, us: seq<RayMarchingSphere>, rotate: Quaternion -> Matrix4x4)
    requires |ss| == |us|
    requires forall i :: 0 <= i < |ss| ==>
      ss[i].transform == us[i].transform && ss[i].sphereBaseColor.(a := 0.0) == us[i].sphereBaseColor.(a := 0.0)
    ensures PackedSpheres(ss, rotate) == PackedSpheres(us, rotate)
  {
    PackedSpheresLength(ss, rotate);
    PackedSpheresLength(us, rotate);
    forall i | 0 <= i < |ss|
      ensures PackedSpheres(ss, rotate)[i] == PackedSpheres(us, rotate)[i]
    {
      PackedSpheresAt(ss, rotate, i);
      PackedSpheresAt(us, rotate, i);
      assert ss[i].sphereBaseColor.r == ss[i].sphereBaseColor.(a := 0.0).r;
    }
  }

  class RayMarchingObjsManager {
    var RayMarchingSpheres: array?<RayMarchingSphere>
    var RayMarchingMaterial: Material?
    var ReflectionProbe: ReflectionProbe?
    var sphereBuffer: GraphicsBuffer?<Sphere>

    constructor (spheres: array?<RayMarchingSphere>, material: Material?, probe: ReflectionProbe?)
      ensures RayMarchingSpheres == spheres && RayMarchingMaterial == material
      ensures ReflectionProbe == probe && sphereBuffer == null
    {
      RayMarchingSpheres, RayMarchingMaterial, ReflectionProbe := spheres, material, probe;
      sphereBuffer := null;
    }

    /**
     * Packs every tracked sphere, uploads the array, and binds the buffer
     * (always) and the probe's cubemap (only when a probe is set) on the
     * material. The buffer is created, sized for this call's sphere count,
     * only while it is still missing; later calls reuse it whatever the count.
     */
    method RefreshTransforms(rotate: Quaternion -> Matrix4x4)
      requires RayMarchingSpheres != null && RayMarchingMaterial != null
      modifies this`sphereBuffer, sphereBuffer, RayMarchingMaterial
      ensures sphereBuffer != null
      ensures old(sphereBuffer) != null ==> sphereBuffer == old(sphereBuffer)
      ensures old(sphereBuffer) == null ==>
        && fresh(sphereBuffer)
        && sphereBuffer.target == Structured
        && sphereBuffer.count == RayMarchingSpheres.Length
        && sphereBuffer.stride == SphereStride
      ensures sphereBuffer.uploaded == PackedSpheres(RayMarchingSpheres[..], rotate)
      ensures RayMarchingMaterial.buffers == old(RayMarchingMaterial.buffers)[SphereBufferProperty := sphereBuffer]
      ensures RayMarchingMaterial.textures ==
        if ReflectionProbe != null
        then old(RayMarchingMaterial.textures)[ReflectionCubeMapProperty := ReflectionProbe.texture]
        else old(RayMarchingMaterial.textures)
      ensures RayMarchingMaterial.floats == old(RayMarchingMaterial.floats)
      ensures unchanged(RayMarchingSpheres)
    {
      var spheres := new Sphere[RayMarchingSpheres.Length];
      var i := 0;
      while i < spheres.Length
        modifies spheres
        invariant 0 <= i <= spheres.Length == RayMarchingSpheres.Length
        invariant spheres[..i] == PackedSpheres(RayMarchingSpheres[..i], rotate)
      {
        var color := RayMarchingSpheres[i].sphereBaseColor;
        var sphereTransform := RayMarchingSpheres[i].transform;
        spheres[i] := spheres[i].(color := Vector3(color.r, color.g, color.b));
        spheres[i] := spheres[i].(position := sphereTransform.position);
        spheres[i] := spheres[i].(radius := Vector3(sphereTransform.localScale.x, sphereTransform.localScale.y, sphereTransform.localScale.z));
        spheres[i] := spheres[i].(rotationMatrix := rotate(sphereTransform.rotation));
        assert RayMarchingSpheres[..i + 1][..i] == RayMarchingSpheres[..i];
        assert spheres[..i + 1] == spheres[..i] + [spheres[i]];
        i := i + 1;
      }
      assert RayMarchingSpheres[..] == RayMarchingSpheres[..spheres.Length];
      assert spheres[..] == spheres[..spheres.Length];

      if sphereBuffer == null {
        sphereBuffer := new GraphicsBuffer<Sphere>(Structured, spheres.Length, SizeOfFloat * 25);
      }
      sphereBuffer.SetData(spheres[..]);
      RayMarchingMaterial.SetBuffer(SphereBufferProperty, sphereBuffer);

      if ReflectionProbe != null {
        RayMarchingMaterial.SetTexture(ReflectionCubeMapProperty, ReflectionProbe.texture);
      }
    }
  }
}
