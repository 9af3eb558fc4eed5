/** The depth buffer the main pass tests against, kept as the size of its
    backing texture, and the overlay pass that draws it to the screen. */
module DepthPasses {
  import opened RenderPasses
  import Debug

  /** `u32::max(x, 1)`: a texture is never empty. */
  function Max1(x: nat): (r: nat)
    ensures r >= 1 && r >= x
    ensures x >= 1 ==> r == x
  {
    if x >= 1 then x else 1
  }

  class DepthPass {
    var textureWidth: nat
    var textureHeight: nat

    /** `new`: the depth texture matches the surface, at least 1x1. */
    constructor (surfaceWidth: nat, surfaceHeight: nat)
      ensures textureWidth == Max1(surfaceWidth) && textureHeight == Max1(surfaceHeight)
    {
      textureWidth := Max1(surfaceWidth);
      textureHeight := Max1(surfaceHeight);
    }

    /** `resize`: the texture, its view, sampler and bind group are
        recreated for the new surface size. */
    method Resize(surfaceWidth: nat, surfaceHeight: nat)
      modifies this
      ensures textureWidth == Max1(surfaceWidth) && textureHeight == Max1(surfaceHeight)
    {
      textureWidth := Max1(surfaceWidth);
      textureHeight := Max1(surfaceHeight);
    }

    /** `draw`: one full-screen quad over what the frame already holds. */
    method Draw() returns (pass: PassRecord)
      ensures pass == DepthVisualization(Load, DrawIndexed(0, |Debug.QUAD_INDICES|, 0, 0, 1))
      ensures pass.draw.indexEnd == 6
    {
      pass := DepthVisualization(Load, DrawIndexed(0, |Debug.QUAD_INDICES|, 0, 0, 1));
    }
  }
}
