/**
 * The camera of Acun3D/Camera.cpp: a position (a 4 x 1 `Vertex4f`), a
 * rotation matrix and the three angles it was last built from. Rotation
 * matrices are kept symbolic (`MatrixTerm`), so the model states the order in
 * which rotations are composed without evaluating any trigonometry.
 */
module Cameras {
  import opened Matrices

  /** `Vertex4f`: a 4 x 1 matrix. */
  type Column4 = a: Mat | IsMat(a, 4, 1) witness Zero(4, 1)

  /** `createRotationX(x) * createRotationY(y) * createRotationZ(z)`, as `setRotation` builds it. */
  function Composed(x: real, y: real, z: real): MatrixTerm
  {
    Times(Times(Rotation(XAxis, x), Rotation(YAxis, y)), Rotation(ZAxis, z))
  }

  /** The rotation the four-argument constructor builds as written: the X rotation for all three angles. */
  function InitialRotationAsWritten(x: real, y: real, z: real): MatrixTerm
  {
    Times(Times(Rotation(XAxis, x), Rotation(XAxis, y)), Rotation(XAxis, z))
  }

  /** The relative form of `setRotation`: the current rotation post-multiplied by each axis in turn. */
  function PostMultiplied(r: MatrixTerm, x: real, y: real, z: real): MatrixTerm
  {
    Times(Times(Times(r, Rotation(XAxis, x)), Rotation(YAxis, y)), Rotation(ZAxis, z))
  }

  class Camera {
    var position: Column4
    var rotation: MatrixTerm
    var rotationX: real
    var rotationY: real
    var rotationZ: real

    /** The position is zero-filled and the rotation is the identity; the three angles are left unset, as in the source. */
    constructor ()
      ensures position == Zero(4, 1) && rotation == Literal(Identity(4, 4))
    {
      position := Zero(4, 1);
      rotation := Literal(Identity(4, 4));
    }

    /** As written: the angles are not stored and every factor is an X rotation. */
    constructor At(position: Column4, xRotation: real, yRotation: real, zRotation: real)
      ensures this.position == position && rotation == InitialRotationAsWritten(xRotation, yRotation, zRotation)
    {
      this.position := position;
      rotation := Times(Times(Rotation(XAxis, xRotation), Rotation(XAxis, yRotation)), Rotation(XAxis, zRotation));
    }

    function GetPosition(): Column4
      reads this
    {
      position
    }

    /** Replaces the position, or adds to it entry by entry (`+=` on `Vertex4f`) when `relative`. */
    method SetPosition(p: Column4, relative: bool)
      modifies this
      ensures position == if relative then Sum(old(position), p, 4, 1) else p
      ensures rotation == old(rotation)
      ensures rotationX == old(rotationX) && rotationY == old(rotationY) && rotationZ == old(rotationZ)
    {
      if relative {
        position := Sum(position, p, 4, 1);
      } else {
        position := p;
      }
    }

    function GetRotation(): MatrixTerm
      reads this
    {
      rotation
    }

    /** Stores the three angles, then rebuilds the rotation, or post-multiplies it when `relative`. */
    method SetRotation(xRotation: real, yRotation: real, zRotation: real, relative: bool)
      modifies this
      ensures rotationX == xRotation && rotationY == yRotation && rotationZ == zRotation
      ensures rotation == if relative then PostMultiplied(old(rotation), xRotation, yRotation, zRotation)
                          else Composed(xRotation, yRotation, zRotation)
      ensures position == old(position)
    {
      rotationX, rotationY, rotationZ := xRotation, yRotation, zRotation;
      if relative {
        rotation := Times(Times(Times(rotation, Rotation(XAxis, xRotation)), Rotation(YAxis, yRotation)),
                          Rotation(ZAxis, zRotation));
      } else {
        rotation := Times(Times(Rotation(XAxis, xRotation), Rotation(YAxis, yRotation)), Rotation(ZAxis, zRotation));
      }
    }

    /** Pre-multiplies the stored rotation by m. */
    method Rotate(m: MatrixTerm)
      modifies this
      ensures rotation == Times(m, old(rotation))
      ensures position == old(position)
      ensures rotationX == old(rotationX) && rotationY == old(rotationY) && rotationZ == old(rotationZ)
    {
      rotation := Times(m, rotation);
    }

    /** Increases the X angle by `rad` and rebuilds the rotation from the three angles. */
    method RotateX(rad: real)
      modifies this
      ensures rotationX == old(rotationX) + rad && rotationY == old(rotationY) && rotationZ == old(rotationZ)
      ensures rotation == Composed(rotationX, rotationY, rotationZ)
      ensures position == old(position)
    {
      SetRotation(rotationX + rad, rotationY, rotationZ, false);
    }

    method RotateY(rad: real)
      modifies this
      ensures rotationY == old(rotationY) + rad && rotationX == old(rotationX) && rotationZ == old(rotationZ)
      ensures rotation == Composed(rotationX, rotationY, rotationZ)
      ensures position == old(position)
    {
      SetRotation(rotationX, rotationY + rad, rotationZ, false);
    }

    method RotateZ(rad: real)
      modifies this
      ensures rotationZ == old(rotationZ) + rad && rotationX == old(rotationX) && rotationY == old(rotationY)
      ensures rotation == Composed(rotationX, rotationY, rotationZ)
      ensures position == old(position)
    {
      SetRotation(rotationX, rotationY, rotationZ + rad, false);
    }

    function GetRotationX(): real
      reads this
    {
      rotationX
    }

    function GetRotationY(): real
      reads this
    {
      rotationY
    }

    function GetRotationZ(): real
      reads this
    {
      rotationZ
    }
  }

  // ---------------------------------------------------------------------------
  // Properties

  /** A relative `setRotation` on a camera whose rotation is the identity gives the absolute rotation. */
  lemma RelativeFromIdentity(x: real, y: real, z: real, rot: (Axis, real) -> Mat4)
    ensures Eval(PostMultiplied(Literal(Identity(4, 4)), x, y, z), rot) == Eval(Composed(x, y, z), rot)
  {
    var e: Mat4 := Identity(4, 4);
    IdentityNeutral(rot(XAxis, x), 4, 4);
    assert Times4(e, rot(XAxis, x)) == rot(XAxis, x);
    assert Eval(Times(Literal(e), Rotation(XAxis, x)), rot) == Eval(Rotation(XAxis, x), rot);
  }

  /** A relative move by d followed by one by -d returns the camera to where it was. */
  lemma RelativeMoveUndone(p: Column4, d: Column4)
    ensures Sum(Sum(p, d, 4, 1), Negated(d, 4, 1), 4, 1) == p
  {
    var r := Sum(Sum(p, d, 4, 1), Negated(d, 4, 1), 4, 1);
    forall i | 0 <= i < 4
      ensures r[i] == p[i]
    {
      assert r[i][0] == p[i][0];
    }
  }

  /**
   * The four-argument constructor as written ignores which axis each angle
   * belongs to: for a rotation builder that is the identity about X and Z but
   * the zero matrix about Y, the constructor's rotation evaluates to the
   * identity, while the X-Y-Z composition that `setRotation` builds (the
   * evident intent) evaluates to zero.
   */
  lemma InitialRotationIgnoresAxes(x: real, y: real, z: real)
    ensures var rot := (a: Axis, t: real) => if a == YAxis then Zero(4, 4) else Identity(4, 4);
            Eval(InitialRotationAsWritten(x, y, z), rot) == Identity(4, 4)
            && Eval(Composed(x, y, z), rot) == Zero(4, 4)
            && Eval(InitialRotationAsWritten(x, y, z), rot) != Eval(Composed(x, y, z), rot)
  {
    var e: Mat4 := Identity(4, 4);
    var z0: Mat4 := Zero(4, 4);
    IdentityNeutral(e, 4, 4);
    IdentityNeutral(z0, 4, 4);
    var rot := (a: Axis, t: real) => if a == YAxis then Zero(4, 4) else Identity(4, 4);
    assert rot(XAxis, x) == e && rot(XAxis, y) == e && rot(XAxis, z) == e;
    assert Times4(e, e) == e;
    assert Eval(Rotation(XAxis, y), rot) == e && Eval(Rotation(XAxis, z), rot) == e;
    assert Eval(Times(Rotation(XAxis, x), Rotation(XAxis, y)), rot) == Times4(e, e);
    assert Eval(InitialRotationAsWritten(x, y, z), rot) == Times4(Times4(e, e), e);
    assert Times4(e, z0) == z0 && Times4(z0, e) == z0;
    assert Eval(Rotation(YAxis, y), rot) == z0 && Eval(Rotation(ZAxis, z), rot) == e;
    assert Eval(Times(Rotation(XAxis, x), Rotation(YAxis, y)), rot) == Times4(e, z0);
    assert Eval(Composed(x, y, z), rot) == Times4(Times4(e, z0), e);
    assert e[0][0] == 1.0 && z0[0][0] == 0.0;
  }
}
