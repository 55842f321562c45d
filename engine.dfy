/**
 * Host-engine vocabulary shared by the render features and sphere managers:
 * the value structs of the engine's maths library, the handful of engine
 * objects whose state the modelled code changes, and C#'s integer division.
 *
 * Floating-point components are modelled as `real`. The modelled code only
 * copies them from one struct to another, so no rounding is involved.
 */
module Engine {

  datatype Vector3 = Vector3(x: real, y: real, z: real)

  datatype Vector4 = Vector4(x: real, y: real, z: real, w: real)

  datatype Color = Color(r: real, g: real, b: real, a: real)

  datatype Quaternion = Quaternion(x: real, y: real, z: real, w: real)

  /** The floats of a matrix, in the engine's column-major order. */
  datatype Matrix = Matrix(entries: seq<real>)

  /** A 4x4 matrix: exactly sixteen floats, never inspected by the modelled code. */
  type Matrix4x4 = m: Matrix | |m.entries| == 16 witness Matrix(seq(16, _ => 0.0))

  /** The part of a scene transform the modelled code reads. */
  datatype Transform = Transform(position: Vector3, localScale: Vector3, rotation: Quaternion)

  /** An engine texture object (a cubemap, a camera target), known only by identity. */
  datatype Texture = Texture(id: nat)

  datatype FilterMode = Point | Bilinear | Trilinear

  /** Bytes in a C# `float`: `sizeof(float)`. */
  const SizeOfFloat: nat := 4

  /**
   * A material: the shader uniforms bound on it, by property name.
   * Buffers are bound by reference, so that map holds objects.
   */
  class Material {
    var floats: map<string, real>
    var textures: map<string, Texture>
    var buffers: map<string, object>

    constructor ()
      ensures floats == map[] && textures == map[] && buffers == map[]
    {
      floats, textures, buffers := map[], map[], map[];
    }

    method SetBuffer(name: string, buffer: object)
      modifies this
      ensures buffers == old(buffers)[name := buffer]
      ensures floats == old(floats) && textures == old(textures)
    {
      buffers := buffers[name := buffer];
    }

    method SetTexture(name: string, texture: Texture)
      modifies this
      ensures textures == old(textures)[name := texture]
      ensures floats == old(floats) && buffers == old(buffers)
    {
      textures := textures[name := texture];
    }
  }

  datatype BufferTarget = Structured | Raw | Constant

  /**
   * A GPU buffer of `count` elements of `stride` bytes each. Its size is
   * fixed at construction; `SetData` replaces what was last uploaded.
   */
  class GraphicsBuffer<T> {
    const target: BufferTarget
    const count: int
    const stride: int
    var uploaded: seq<T>

    constructor (target: BufferTarget, count: int, stride: int)
      ensures this.target == target && this.count == count && this.stride == stride
      ensures uploaded == []
    {
      this.target, this.count, this.stride := target, count, stride;
      uploaded := [];
    }

    method SetData(data: seq<T>)
      modifies this
      ensures uploaded == data
    {
      uploaded := data;
    }
  }

  function Abs(a: int): (r: nat)
    ensures r == a || r == -a
  {
    if a < 0 then -a else a
  }

  /**
   * C#'s `a / b` on `int`: the quotient rounded toward zero. The magnitude of
   * the quotient is the largest count of whole divisors that fits into `a`,
   * and a non-zero quotient is negative exactly when the operands' signs differ.
   */
  function TruncDiv(a: int, b: int): (q: int)
    requires b != 0
    ensures Abs(q) * Abs(b) <= Abs(a) < (Abs(q) + 1) * Abs(b)
    ensures q != 0 ==> (q < 0 <==> (a < 0) != (b < 0))
  {
    var n, d := Abs(a), Abs(b);
    var m := n / d;
    FloorDivBounds(n, d);
    if (a < 0) == (b < 0) then m else -m
  }

  lemma FloorDivBounds(n: nat, d: nat)
    requires d > 0
    ensures (n / d) * d <= n < (n / d + 1) * d
  {
    assert n == (n / d) * d + n % d;
    assert (n / d + 1) * d == (n / d) * d + d;
  }

  /** On non-negative operands rounding toward zero is floor division. */
  lemma TruncDivOfNatural(a: nat, b: nat)
    requires b > 0
    ensures TruncDiv(a, b) == a / b
    ensures TruncDiv(a, b) * b <= a < TruncDiv(a, b) * b + b
  {
    assert a == (a / b) * b + a % b;
  }
}
