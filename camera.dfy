/** The camera the controllers steer: an eye looking at a target, a
    vertical field of view, clip planes and the viewport it projects onto.
    The aspect ratio always follows the viewport; a zero-sized viewport is
    refused. The projection matrices themselves are uninterpreted. */
module Cameras {
  import opened Wrappers
  import opened Geometry

  /** Why `set_viewport_size` refused a size. */
  datatype CameraError = ZeroViewportSize(width: nat, height: nat)

  class Camera {
    var eye: Vec3
    var target: Vec3
    var up: Vec3
    var worldUp: Vec3
    var fovY: real
    var zNear: real
    var zFar: real
    var aspect: real
    var viewportWidth: nat
    var viewportHeight: nat

    /** The viewport is never empty and the aspect ratio matches it. */
    ghost predicate Valid()
      reads this
    {
      viewportWidth > 0 && viewportHeight > 0 &&
      aspect == viewportWidth as real / viewportHeight as real
    }

    constructor (eye: Vec3, target: Vec3, up: Vec3, fovY: real, zNear: real, zFar: real,
                 width: nat, height: nat)
      requires width > 0 && height > 0
      ensures Valid()
      ensures this.eye == eye && this.target == target && this.up == up && worldUp == up
      ensures this.fovY == fovY && this.zNear == zNear && this.zFar == zFar
      ensures viewportWidth == width && viewportHeight == height
    {
      this.eye := eye;
      this.target := target;
      this.up := up;
      this.worldUp := up;
      this.fovY := fovY;
      this.zNear := zNear;
      this.zFar := zFar;
      this.viewportWidth := width;
      this.viewportHeight := height;
      this.aspect := width as real / height as real;
    }

    /** The direction the camera faces. */
    function Forward(m: Math): Vec3
      reads this
    {
      m.forward(eye, target)
    }

    /** `view_projection_matrix`: the perspective projection applied after
        the look-at view transform. */
    function ViewProjection(m: Math): Mat4
      reads this
    {
      var view := m.lookAt(eye, target, up);
      var projection := m.perspective(fovY, aspect, zNear, zFar);
      m.mul(projection, view)
    }

    /** Moves the eye and the target together; nothing else changes. */
    method Reorient(newEye: Vec3, newTarget: Vec3)
      requires Valid()
      modifies this
      ensures Valid()
      ensures eye == newEye && target == newTarget
      ensures up == old(up) && worldUp == old(worldUp) && fovY == old(fovY)
      ensures zNear == old(zNear) && zFar == old(zFar) && aspect == old(aspect)
      ensures viewportWidth == old(viewportWidth) && viewportHeight == old(viewportHeight)
    {
      eye := newEye;
      target := newTarget;
    }

    method SetFovY(radians: real)
      requires Valid()
      modifies this
      ensures Valid()
      ensures fovY == radians
      ensures eye == old(eye) && target == old(target) && up == old(up) && worldUp == old(worldUp)
      ensures zNear == old(zNear) && zFar == old(zFar) && aspect == old(aspect)
      ensures viewportWidth == old(viewportWidth) && viewportHeight == old(viewportHeight)
    {
      fovY := radians;
    }

    /** A zero dimension is refused and nothing changes; any other size is
        adopted and the aspect ratio recomputed from it. */
    method SetViewportSize(width: nat, height: nat) returns (r: Result<(), CameraError>)
      requires Valid()
      modifies this
      ensures Valid()
      ensures r.Err? <==> width == 0 || height == 0
      ensures r.Err? ==> r.error == ZeroViewportSize(width, height)
      ensures r.Err? ==> viewportWidth == old(viewportWidth) && viewportHeight == old(viewportHeight)
                         && aspect == old(aspect)
      ensures r.Ok? ==> viewportWidth == width && viewportHeight == height
                        && aspect == width as real / height as real
      ensures eye == old(eye) && target == old(target) && up == old(up) && worldUp == old(worldUp)
      ensures fovY == old(fovY) && zNear == old(zNear) && zFar == old(zFar)
    {
      if width == 0 || height == 0 {
        r := Err(ZeroViewportSize(width, height));
      } else {
        viewportWidth := width;
        viewportHeight := height;
        aspect := width as real / height as real;
        r := Ok(());
      }
    }
  }
}
