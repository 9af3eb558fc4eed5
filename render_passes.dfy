/** What a frame records: the render passes in order, how each pass treats
    the existing colour and depth contents, and the draw calls issued. */
module RenderPasses {
  datatype Color = Color(r: real, g: real, b: real, a: real)

  /** Start a pass from a cleared attachment or from what is already there. */
  datatype LoadOp<T> = Clear(value: T) | Load

  /** `draw_indexed(firstIndex..indexEnd, baseVertex, firstInstance..instanceEnd)` */
  datatype DrawCall = DrawIndexed(firstIndex: nat, indexEnd: nat, baseVertex: int,
                                  firstInstance: nat, instanceEnd: nat)

  /** The passes of one frame. */
  datatype PassRecord =
    | MainPass(colorLoad: LoadOp<Color>, depthLoad: LoadOp<real>, modelsDrawn: nat)
    | LightDebugOverlay(colorLoad: LoadOp<Color>, depthLoad: LoadOp<real>, draw: DrawCall)
    | DepthVisualization(colorLoad: LoadOp<Color>, draw: DrawCall)
}
