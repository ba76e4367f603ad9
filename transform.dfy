/** An object's placement: a position, a uniform scale and an angle (degrees)
    about the world Y axis, turned into a model matrix. */
module Transforms {
  import opened Mgl

  datatype Transform = Transform(x: real, y: real, z: real, scale: real, angle: real)

  /** NewTransform: at the origin, unit scale, no rotation. */
  function NewTransform(): (t: Transform)
    ensures t.x == 0.0 && t.y == 0.0 && t.z == 0.0
    ensures t.scale == 1.0 && t.angle == 0.0
  {
    Transform(0.0, 0.0, 0.0, 1.0, 0.0)
  }

  /** GetTransformationMatrix: scale first, then rotate about Y, then translate,
      multiplied as Translate x (RotateY x Scale). */
  function GetTransformationMatrix(lib: MathLib, t: Transform): Mat4
  {
    var translation := Translate3D(t.x, t.y, t.z);
    var rotation := HomogRotate3DY(lib, DegToRad(t.angle));
    var scale := Scale3D(t.scale, t.scale, t.scale);
    Mul4(translation, Mul4(rotation, scale))
  }

  /** Independent statement of the model matrix, entry by entry, for c and s the
      cosine and sine of the angle. */
  function ExpectedModel(c: real, s: real, t: Transform): Mat4
  {
    var k := t.scale;
    [[c * k, 0.0, s * k, t.x],
     [0.0, k, 0.0, t.y],
     [-s * k, 0.0, c * k, t.z],
     [0.0, 0.0, 0.0, 1.0]]
  }

  lemma ModelMatrixClosedForm(lib: MathLib, t: Transform)
    ensures GetTransformationMatrix(lib, t)
            == ExpectedModel(lib.cos(DegToRad(t.angle)), lib.sin(DegToRad(t.angle)), t)
  {
    var c, s := lib.cos(DegToRad(t.angle)), lib.sin(DegToRad(t.angle));
    var rs := Mul4(HomogRotate3DY(lib, DegToRad(t.angle)), Scale3D(t.scale, t.scale, t.scale));
    var k := t.scale;
    Entrywise(rs, [[c * k, 0.0, s * k, 0.0], [0.0, k, 0.0, 0.0], [-s * k, 0.0, c * k, 0.0], [0.0, 0.0, 0.0, 1.0]]);
    Entrywise(Mul4(Translate3D(t.x, t.y, t.z), rs), ExpectedModel(c, s, t));
  }

  /** The fourth column carries the position, whatever the angle and scale. */
  lemma TranslationColumn(lib: MathLib, t: Transform)
    ensures Column(GetTransformationMatrix(lib, t), 3) == Vec4(t.x, t.y, t.z, 1.0)
  {
    ModelMatrixClosedForm(lib, t);
  }

  /** Rotation about Y leaves the Y axis only scaled: the second column is (0, scale, 0, 0). */
  lemma YAxisColumn(lib: MathLib, t: Transform)
    ensures Column(GetTransformationMatrix(lib, t), 1) == Vec4(0.0, t.scale, 0.0, 0.0)
  {
    ModelMatrixClosedForm(lib, t);
  }

  /** The default transform yields the identity matrix when cos 0 = 1 and sin 0 = 0. */
  lemma DefaultIsIdentity(lib: MathLib)
    requires lib.cos(0.0) == 1.0 && lib.sin(0.0) == 0.0
    ensures GetTransformationMatrix(lib, NewTransform()) == Ident4()
  {
    ModelMatrixClosedForm(lib, NewTransform());
    assert DegToRad(0.0) == 0.0;
  }

  /** With no rotation and no translation, the point (1,0,0) lands at (scale,0,0). */
  lemma UnrotatedPointScales(lib: MathLib, scale: real)
    requires lib.cos(0.0) == 1.0 && lib.sin(0.0) == 0.0
    ensures Apply(GetTransformationMatrix(lib, Transform(0.0, 0.0, 0.0, scale, 0.0)),
                  Vec4(1.0, 0.0, 0.0, 1.0))
            == Vec4(scale, 0.0, 0.0, 1.0)
  {
    var t := Transform(0.0, 0.0, 0.0, scale, 0.0);
    ModelMatrixClosedForm(lib, t);
    assert DegToRad(0.0) == 0.0;
  }

  /** The multiplication order is observable: rotating after translating moves a
      unit offset along X onto -Z under a quarter turn, while the model matrix keeps
      it at X. */
  lemma CompositionOrderMatters(lib: MathLib)
    requires lib.cos(DegToRad(90.0)) == 0.0 && lib.sin(DegToRad(90.0)) == 1.0
    ensures var t := Transform(1.0, 0.0, 0.0, 1.0, 90.0);
            var swapped := Mul4(HomogRotate3DY(lib, DegToRad(t.angle)),
                                Mul4(Translate3D(t.x, t.y, t.z), Scale3D(t.scale, t.scale, t.scale)));
            Column(GetTransformationMatrix(lib, t), 3) == Vec4(1.0, 0.0, 0.0, 1.0) &&
            Column(swapped, 3) == Vec4(0.0, 0.0, -1.0, 1.0)
  {
    var t := Transform(1.0, 0.0, 0.0, 1.0, 90.0);
    TranslationColumn(lib, t);
  }
}
