/** Vectors, quaternions and matrices of the renderer, with f32 modelled as
    `real`. Component-wise arithmetic (addition, scaling, cross product) is
    exact here; everything the engine delegates to floating-point geometry
    (normalisation, trigonometry, quaternion rotation, matrix builders and
    inverses, the camera's look-at and perspective) goes through the record
    `Math`, whose functions are left uninterpreted: every property proved in
    this project holds for any choice of them. */
module Geometry {
  import opened Wrappers

  datatype Vec2 = Vec2(x: real, y: real)
  datatype Vec3 = Vec3(x: real, y: real, z: real)
  datatype Vec4 = Vec4(x: real, y: real, z: real, w: real)

  /** A unit quaternion as its four components. */
  datatype Quat = Quat(x: real, y: real, z: real, w: real)

  /** A column-major 4x4 matrix. */
  datatype Mat4 = Mat4(c0: Vec4, c1: Vec4, c2: Vec4, c3: Vec4)

  /** An opaque GPU resource (texture, view, sampler, buffer, bind group,
      bind group layout). Only its identity matters to the model. */
  datatype Handle = Handle(id: nat)

  const ZERO2: Vec2 := Vec2(0.0, 0.0)
  const ZERO3: Vec3 := Vec3(0.0, 0.0, 0.0)
  const ONE3: Vec3 := Vec3(1.0, 1.0, 1.0)
  const UNIT_Z: Vec3 := Vec3(0.0, 0.0, 1.0)
  const ZERO4: Vec4 := Vec4(0.0, 0.0, 0.0, 0.0)
  const QUAT_IDENTITY: Quat := Quat(0.0, 0.0, 0.0, 1.0)
  /** glam's `Mat4::default()`: the identity. */
  const MAT4_IDENTITY: Mat4 :=
    Mat4(Vec4(1.0, 0.0, 0.0, 0.0), Vec4(0.0, 1.0, 0.0, 0.0),
         Vec4(0.0, 0.0, 1.0, 0.0), Vec4(0.0, 0.0, 0.0, 1.0))
  /** The all-zero bit pattern of a `Mat4` (bytemuck's `Zeroable`). */
  const MAT4_ZERO: Mat4 := Mat4(ZERO4, ZERO4, ZERO4, ZERO4)

  function Add2(a: Vec2, b: Vec2): Vec2 { Vec2(a.x + b.x, a.y + b.y) }
  function Add3(a: Vec3, b: Vec3): Vec3 { Vec3(a.x + b.x, a.y + b.y, a.z + b.z) }
  function Sub3(a: Vec3, b: Vec3): Vec3 { Vec3(a.x - b.x, a.y - b.y, a.z - b.z) }
  function Scale3(v: Vec3, s: real): Vec3 { Vec3(v.x * s, v.y * s, v.z * s) }
  function Dot3(a: Vec3, b: Vec3): real { a.x * b.x + a.y * b.y + a.z * b.z }
  function Cross3(a: Vec3, b: Vec3): Vec3 {
    Vec3(a.y * b.z - a.z * b.y, a.z * b.x - a.x * b.z, a.x * b.y - a.y * b.x)
  }
  /** The squared Euclidean length, exact on reals. */
  function LengthSq3(v: Vec3): real { Dot3(v, v) }

  /** Rust's `Option<T>::unwrap_or_default()` for the two accumulator types. */
  function Vec2OrZero(o: Option<Vec2>): Vec2 { if o.Some? then o.value else ZERO2 }
  function RealOrZero(o: Option<real>): real { if o.Some? then o.value else 0.0 }

  /** Floating-point geometry the model does not interpret. */
  datatype Math = Math(
    normalize: Vec3 -> Vec3,
    length: Vec3 -> real,
    cos: real -> real,
    sin: real -> real,
    toRadians: real -> real,
    /** `Quat::from_axis_angle(axis, angle)` */
    axisAngle: (Vec3, real) -> Quat,
    /** `quat * vec`: rotate a vector */
    rotate: (Quat, Vec3) -> Vec3,
    /** `Mat4::from_scale_rotation_translation` */
    scaleRotationTranslation: (Vec3, Quat, Vec3) -> Mat4,
    /** `Mat4::from_rotation_translation` */
    rotationTranslation: (Quat, Vec3) -> Mat4,
    /** `Mat4::from_translation` */
    translation: Vec3 -> Mat4,
    /** `Mat4::from_quat` */
    fromQuat: Quat -> Mat4,
    mul: (Mat4, Mat4) -> Mat4,
    inverse: Mat4 -> Mat4,
    /** `Mat4::look_at_rh(eye, target, up)` */
    lookAt: (Vec3, Vec3, Vec3) -> Mat4,
    /** `Mat4::perspective_rh(fov_y, aspect, near, far)` */
    perspective: (real, real, real, real) -> Mat4,
    /** The camera's forward vector from its eye and target. */
    forward: (Vec3, Vec3) -> Vec3
  )

  /** `Vec3 == Vec3::ZERO` */
  predicate IsZero3(v: Vec3) { v.x == 0.0 && v.y == 0.0 && v.z == 0.0 }

  /** Scaling by s multiplies the squared length by s*s. */
  lemma {:induction false} LengthSqScale(v: Vec3, s: real)
    ensures LengthSq3(Scale3(v, s)) == s * s * LengthSq3(v)
  {
    calc {
      LengthSq3(Scale3(v, s));
      (v.x * s) * (v.x * s) + (v.y * s) * (v.y * s) + (v.z * s) * (v.z * s);
      { assert (v.x * s) * (v.x * s) == s * s * (v.x * v.x);
        assert (v.y * s) * (v.y * s) == s * s * (v.y * v.y);
        assert (v.z * s) * (v.z * s) == s * s * (v.z * v.z); }
      s * s * (v.x * v.x + v.y * v.y + v.z * v.z);
    }
  }
}
