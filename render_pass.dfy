/** The collaborators a contents renders into: the shader's vertex and
    uniform records, the draw command, the entity being drawn, the
    tessellator's outcome and the render pass that collects commands. */
module Rendering {
  import opened Geometry

  /** The three outcomes of tessellating a path. */
  datatype TessellationResult = Success | InputError | TessellationError

  /** One vertex of the linear gradient fill pipeline: its position only. */
  datatype PerVertexData = PerVertexData(position: Point)

  /** The vertex stage's uniform: the model-view-projection matrix and the
      matrix that maps positions into gradient space. */
  datatype FrameInfo = FrameInfo(mvp: Matrix, matrix: Matrix)

  /** The fragment stage's uniform: the gradient axis, its two end colours
      (premultiplied) and the tile mode selector. */
  datatype GradientInfo = GradientInfo(
    startPoint: Point,
    endPoint: Point,
    startColor: Color,
    endColor: Color,
    tileMode: real)

  datatype PrimitiveType = Triangle | TriangleStrip | Line | LineStrip | Points

  /** A pipeline object chosen by the renderer, known only by its handle. */
  datatype Pipeline = Pipeline(handle: nat)

  /** The entity being drawn: its transformation and its stencil depth. */
  datatype Entity = Entity(transformation: Matrix, stencilDepth: nat)

  /** A draw command with the vertex buffer and the two uniforms it binds. */
  datatype Command = Command(
    pipeline: Pipeline,
    stencilReference: nat,
    vertices: seq<PerVertexData>,
    primitiveType: PrimitiveType,
    gradientInfo: GradientInfo,
    frameInfo: FrameInfo)

  /** A render pass: the size of its target, the commands submitted to it in
      order, and whether it accepts further commands. Why a pass refuses a
      command is the pass's business; a contents only forwards the answer. */
  class RenderPass {
    const renderTargetSize: ISize
    var accept: bool
    var commands: seq<Command>

    constructor (size: ISize, accepting: bool)
      ensures renderTargetSize == size && accept == accepting && commands == []
    {
      renderTargetSize := size;
      accept := accepting;
      commands := [];
    }

    /** Records the command after those already submitted and reports
        whether the pass accepts it. */
    method AddCommand(cmd: Command) returns (ok: bool)
      modifies this`commands
      ensures commands == old(commands) + [cmd]
      ensures ok == accept
    {
      commands := commands + [cmd];
      ok := accept;
    }
  }
}
