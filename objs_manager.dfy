/**
 * The sphere-transform collector that packs each tracked sphere into one
 * Vector4: its world position in x, y, z and its x scale as the radius in w.
 * The packed array is reallocated only when its length no longer matches
 * the transform list, and is overwritten component by component.
 */
module ObjsManager {
  import opened Engine

  /** The packed form of one sphere: position, and the x scale as the radius. */
  function PackSphere(t: Transform): Vector4
  {
    Vector4(t.position.x, t.position.y, t.position.z, t.localScale.x)
  }

  /** The packed array every refresh produces from the transform list. */
  function Packed(ts: seq<Transform>): seq<Vector4>
  {
    if ts == [] then [] else Packed(ts[..|ts| - 1]) + [PackSphere(ts[|ts| - 1])]
  }

  /** Element i of the packed array is transform i's (position.xyz, localScale.x). */
  lemma {:induction false} PackedAt(ts: seq<Transform>, i: int)
    requires 0 <= i < |ts|
    ensures |Packed(ts)| == |ts|
    ensures Packed(ts)[i] == Vector4(ts[i].position.x, ts[i].position.y, ts[i].position.z, ts[i].localScale.x)
  {
    PackedLength(ts[..|ts| - 1]);
    if i < |ts| - 1 {
      PackedAt(ts[..|ts| - 1], i);
    }
  }

  lemma {:induction false} PackedLength(ts: seq<Transform>)
    ensures |Packed(ts)| == |ts|
  {
    if ts != [] {
      PackedLength(ts[..|ts| - 1]);
    }
  }

  /**
   * Only the x component of the scale reaches the packed array: two transform
   * lists that agree on positions and x scales pack identically, whatever
   * their y and z scales and rotations.
   */
  lemma {:induction false} PackedIgnoresScaleYZ(ts: seq<Transform>, us: seq<Transform>)
    requires |ts| == |us|
    requires forall i :: 0 <= i < |ts| ==> ts[i].position == us[i].position && ts[i].localScale.x == us[i].localScale.x
    ensures Packed(ts) == Packed(us)
  {
    PackedLength(ts);
    PackedLength(us);
    forall i | 0 <= i < |ts|
      ensures Packed(ts)[i] == Packed(us)[i]
    {
      PackedAt(ts, i);
      PackedAt(us, i);
    }
  }

  class RayMarchingObjsManager {
    var Spheres: array?<Vector4>
    var SphereTransforms: array?<Transform>

    constructor (sphereTransforms: array?<Transform>)
      ensures Spheres == null && SphereTransforms == sphereTransforms
    {
      Spheres := null;
      SphereTransforms := sphereTransforms;
    }

    /**
     * Repacks every transform. The existing array is kept when its length
     * already matches; otherwise a new one is allocated. The transform list
     * is only read.
     */
    method RefreshTransforms()
      requires SphereTransforms != null
      modifies this`Spheres, Spheres
      ensures Spheres != null && Spheres.Length == SphereTransforms.Length
      ensures Spheres[..] == Packed(SphereTransforms[..])
      ensures old(Spheres) != null && old(Spheres.Length) == SphereTransforms.Length ==> Spheres == old(Spheres)
      ensures old(Spheres) == null || old(Spheres.Length) != SphereTransforms.Length ==> fresh(Spheres)
      ensures old(Spheres) != null && Spheres != old(Spheres) ==> unchanged(old(Spheres))
      ensures SphereTransforms == old(SphereTransforms) && unchanged(SphereTransforms)
    {
      if Spheres == null || Spheres.Length != SphereTransforms.Length {
        Spheres := new Vector4[SphereTransforms.Length];
      }
      var i := 0;
      while i < Spheres.Length
        modifies Spheres
        invariant 0 <= i <= Spheres.Length
        invariant Spheres[..i] == Packed(SphereTransforms[..i])
      {
        var position := SphereTransforms[i].position;
        Spheres[i] := Spheres[i].(x := position.x);
        Spheres[i] := Spheres[i].(y := position.y);
        Spheres[i] := Spheres[i].(z := position.z);
        Spheres[i] := Spheres[i].(w := SphereTransforms[i].localScale.x);
        assert SphereTransforms[..i + 1][..i] == SphereTransforms[..i];
        assert Spheres[..i + 1] == Spheres[..i] + [Spheres[i]];
        i := i + 1;
      }
      assert SphereTransforms[..] == SphereTransforms[..Spheres.Length];
      assert Spheres[..] == Spheres[..Spheres.Length];
    }
  }

  /**
   * Two refreshes with unchanged transforms leave identical contents, and the
   * transforms are untouched.
   */
  method RefreshTwice(m: RayMarchingObjsManager) returns (first: seq<Vector4>, second: seq<Vector4>)
    requires m.SphereTransforms != null
    modifies m, m.Spheres
    ensures m.SphereTransforms == old(m.SphereTransforms) && unchanged(m.SphereTransforms)
    ensures first == second == Packed(m.SphereTransforms[..])
  {
    m.RefreshTransforms();
    var array1 := m.Spheres;
    first := m.Spheres[..];
    m.RefreshTransforms();
    assert m.Spheres == array1;
    second := m.Spheres[..];
  }
}
