/** The numeric values the renderer handles. `f32` is modelled as `real` (no rounding);
    the glam operations that need square roots, trigonometry or matrix algebra are kept as
    symbolic terms, so that the model can say WHICH value is computed without computing it. */
module Math {
  type byte = b: int | 0 <= b < 256

  datatype Vec2 = Vec2(x: real, y: real)
  datatype Vec3 = Vec3(x: real, y: real, z: real)
  datatype Vec4 = Vec4(x: real, y: real, z: real, w: real)
  datatype Quat = Quat(x: real, y: real, z: real, w: real)

  /** A 3-vector as a glam expression tree. */
  datatype VecExpr =
    | Lit(v: Vec3)
    | Plus(a: VecExpr, b: VecExpr)
    | Minus(a: VecExpr, b: VecExpr)
    | Times(a: VecExpr, s: real)
    | Cross(a: VecExpr, b: VecExpr)
    | Normalize(a: VecExpr)
      /** `(cos yaw * cos pitch, sin pitch, sin yaw * cos pitch)`, angles in degrees. */
    | YawPitchDirection(yawDegrees: real, pitchDegrees: real)

  /** A homogeneous point built from a vector expression and a `w` component. */
  datatype Vec4Expr = Vec4Lit(v: Vec4) | Extend(xyz: VecExpr, w: real)

  /** A glam `Mat4` as an expression tree. */
  datatype Mat4 =
    | Identity
    | FromScaleRotationTranslation(scale: Vec3, rotation: Quat, translation: Vec3)
    | Mul(lhs: Mat4, rhs: Mat4)
    | Transpose(m: Mat4)
    | Inverse(m: Mat4)
      /** `Mat4::perspective_lh` with the field of view given in degrees. */
    | PerspectiveLh(fovyDegrees: real, aspect: real, znear: real, zfar: real)
    | LookToLh(eye: VecExpr, dir: VecExpr, up: VecExpr)
      /** A matrix the model takes as given (light projections, shadow matrices). */
    | Given(name: string)

  /** The `f16` that `half::f16::from_f32` returns for the `f32` with the given bit pattern. */
  datatype Half = FromF32Bits(bits: nat)

  /** `f32::from_le_bytes`: the bit pattern of four little-endian bytes. */
  function LeWord(b0: byte, b1: byte, b2: byte, b3: byte): (w: nat)
    ensures w < 0x1_0000_0000
    ensures w % 256 == b0 && w / 0x100_0000 == b3
  {
    b0 + 0x100 * b1 + 0x1_0000 * b2 + 0x100_0000 * b3
  }

  /** Negating `z` moves a point between the right-handed glTF frame and the renderer's
      left-handed one. */
  function FlipZ(v: Vec3): (r: Vec3)
    ensures r.x == v.x && r.y == v.y && r.z == -v.z
  {
    Vec3(v.x, v.y, -v.z)
  }

  /** Flipping twice gives the vector back: the two frames are mirror images. */
  lemma FlipZInvolution(v: Vec3)
    ensures FlipZ(FlipZ(v)) == v
  {
  }
}
