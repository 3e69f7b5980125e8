/** A contents that fills a path with a two-colour linear gradient: its
    setters, which keep the colour list at two entries or more, and its
    Render, which turns the tessellator's outcome into at most one draw
    command on the render pass. */
module LinearGradient {
  import opened Geometry
  import opened Rendering

  /** The colour list SetColors stores for the list it is given: a list of
      two or more colours is kept as it is; a shorter one is padded up to
      two entries with its last colour, or with black when it is empty. */
  function NormalizeColors(colors: seq<Color>): (r: seq<Color>)
    ensures |r| >= 2
    ensures |colors| == 0 ==> r == [Black(), Black()]
    ensures |colors| == 1 ==> r == [colors[0], colors[0]]
    ensures |colors| >= 2 ==> r == colors
    ensures r[..|colors|] == colors
  {
    if |colors| >= 2 then colors
    else colors + Copies(PaddingColor(colors), 2 - |colors|)
  }

  /** Normalising a normalised list changes nothing: once SetColors has
      run, storing the list GetColors returned is a no-op. */
  lemma NormalizeColorsIdempotent(colors: seq<Color>)
    ensures NormalizeColors(NormalizeColors(colors)) == NormalizeColors(colors)
  {
  }

  /** `n` copies of one colour. */
  function Copies(c: Color, n: nat): (r: seq<Color>)
    ensures |r| == n
    ensures forall i :: 0 <= i < n ==> r[i] == c
  {
    if n == 0 then [] else [c] + Copies(c, n - 1)
  }

  /** The colour a short list is padded with. */
  function PaddingColor(colors: seq<Color>): Color
  {
    if colors == [] then Black() else colors[|colors| - 1]
  }

  /** The vertices the tessellation callback appends to the vertex buffer
      builder, one per emitted point, in emission order. */
  method CollectVertices(emitted: seq<Point>) returns (vertices: seq<PerVertexData>)
    ensures |vertices| == |emitted|
    ensures forall i :: 0 <= i < |emitted| ==> vertices[i].position == emitted[i]
  {
    vertices := [];
    for i := 0 to |emitted|
      invariant |vertices| == i
      invariant forall k :: 0 <= k < i ==> vertices[k].position == emitted[k]
    {
      var vtx := PerVertexData(emitted[i]);
      vertices := vertices + [vtx];
    }
  }

  class LinearGradientContents {
    var startPoint: Point
    var endPoint: Point
    var colors: seq<Color>
    var tileMode: TileMode

    /** A default-constructed contents: both end points at the origin, no
        colours yet, clamped tiling. */
    constructor ()
      ensures startPoint == Origin() && endPoint == Origin()
      ensures colors == [] && tileMode == Clamp
    {
      startPoint := Origin();
      endPoint := Origin();
      colors := [];
      tileMode := Clamp;
    }

    method SetEndPoints(start: Point, end: Point)
      modifies this`startPoint, this`endPoint
      ensures startPoint == start && endPoint == end
      ensures colors == old(colors) && tileMode == old(tileMode)
    {
      startPoint := start;
      endPoint := end;
    }

    /** Stores the list, then pads it in place to at least two colours. */
    method SetColors(newColors: seq<Color>)
      modifies this`colors
      ensures colors == NormalizeColors(newColors)
      ensures |GetColors()| >= 2
      ensures startPoint == old(startPoint) && endPoint == old(endPoint) && tileMode == old(tileMode)
    {
      colors := newColors;
      if |colors| == 0 {
        colors := colors + [Black()];
        colors := colors + [Black()];
      } else if |colors| < 2 {
        colors := colors + [colors[|colors| - 1]];
      }
    }

    method SetTileMode(mode: TileMode)
      modifies this`tileMode
      ensures tileMode == mode
      ensures startPoint == old(startPoint) && endPoint == old(endPoint) && colors == old(colors)
    {
      tileMode := mode;
    }

    /** The stored colour list itself, exactly as SetColors left it. */
    function GetColors(): (cs: seq<Color>)
      reads this
      ensures cs == colors
    {
      colors
    }

    /** Draws the gradient-filled path into the pass. The tessellator's
        outcome and the points it emitted, the pipeline the renderer picked
        for this pass and entity, and the contents' inverse matrix are
        supplied by the caller. An input error draws nothing and succeeds;
        a tessellation error draws nothing and fails; otherwise exactly one
        command is submitted and the pass's answer is returned. */
    method Render(pipeline: Pipeline, entity: Entity, pass: RenderPass,
                  result: TessellationResult, emitted: seq<Point>,
                  inverseMatrix: Matrix) returns (ok: bool)
      requires result == Success ==> |colors| >= 2
      modifies pass`commands
      ensures result == InputError ==> ok && pass.commands == old(pass.commands)
      ensures result == TessellationError ==> !ok && pass.commands == old(pass.commands)
      ensures result == Success ==>
        && ok == pass.accept
        && |pass.commands| == |old(pass.commands)| + 1
        && pass.commands[..|old(pass.commands)|] == old(pass.commands)
        && var cmd := pass.commands[|old(pass.commands)|];
        && |cmd.vertices| == |emitted|
        && (forall i :: 0 <= i < |emitted| ==> cmd.vertices[i].position == emitted[i])
        && cmd.gradientInfo == GradientInfo(startPoint, endPoint, Premultiply(colors[0]),
                                            Premultiply(colors[1]), TileModeCode(tileMode))
        && cmd.frameInfo == FrameInfo(Product(Orthographic(pass.renderTargetSize),
                                              entity.transformation), inverseMatrix)
        && cmd.stencilReference == entity.stencilDepth
        && cmd.primitiveType == Triangle
        && cmd.pipeline == pipeline
    {
      var vertices := CollectVertices(emitted);
      if result == InputError {
        return true;
      }
      if result == TessellationError {
        return false;
      }

      var frameInfo := FrameInfo(Product(Orthographic(pass.renderTargetSize),
                                         entity.transformation), inverseMatrix);
      var gradientInfo := GradientInfo(startPoint, endPoint, Premultiply(colors[0]),
                                       Premultiply(colors[1]), TileModeCode(tileMode));
      var cmd := Command(pipeline, entity.stencilDepth, vertices, Triangle,
                         gradientInfo, frameInfo);
      ok := pass.AddCommand(cmd);
    }
  }

  /** Both colours an empty colour list is padded with stay opaque black
      once premultiplied. */
  lemma PremultipliedDefaultIsBlack()
    ensures Premultiply(NormalizeColors([])[0]) == Black()
    ensures Premultiply(NormalizeColors([])[1]) == Black()
  {
  }

  /** Callers of the contents, one per situation: each configures a
      contents and renders once. Everything asserted follows from the
      contracts above alone. */

  /** A unit square tessellated into two triangles, filled with an opaque
      red-to-blue ramp along the x axis, clamped. */
  method RenderSquareScenario()
  {
    var red := Color(1.0, 0.0, 0.0, 1.0);
    var blue := Color(0.0, 0.0, 1.0, 1.0);
    var square := [Point(0.0, 0.0), Point(1.0, 0.0), Point(1.0, 1.0),
                   Point(0.0, 0.0), Point(1.0, 1.0), Point(0.0, 1.0)];
    var contents := new LinearGradientContents();
    contents.SetEndPoints(Point(0.0, 0.0), Point(1.0, 0.0));
    contents.SetColors([red, blue]);
    contents.SetTileMode(Clamp);
    var pass := new RenderPass(ISize(640, 480), true);
    var ok := contents.Render(Pipeline(7), Entity(External(0), 2), pass, Success, square, External(1));
    assert ok && |pass.commands| == 1;
    var cmd := pass.commands[0];
    assert |cmd.vertices| == 6 && cmd.vertices[5].position == Point(0.0, 1.0);
    assert cmd.gradientInfo.startColor == red;
    assert cmd.gradientInfo.endColor == blue;
    assert cmd.gradientInfo.tileMode == 0.0;
    assert cmd.stencilReference == 2;
  }

  /** An empty colour list draws opaque black at both ends of the axis. */
  method RenderNoColorsScenario(points: seq<Point>)
  {
    var contents := new LinearGradientContents();
    contents.SetColors([]);
    contents.SetTileMode(Mirror);
    var pass := new RenderPass(ISize(640, 480), false);
    var ok := contents.Render(Pipeline(7), Entity(External(0), 0), pass, Success, points, External(1));
    assert !ok && |pass.commands| == 1;
    assert pass.commands[0].gradientInfo.startColor == Black();
    assert pass.commands[0].gradientInfo.endColor == Black();
    assert pass.commands[0].gradientInfo.tileMode == 2.0;
  }

  /** An empty path draws nothing and succeeds, even on a contents whose
      colours were never set. */
  method RenderEmptyPathScenario()
  {
    var contents := new LinearGradientContents();
    var pass := new RenderPass(ISize(640, 480), true);
    var ok := contents.Render(Pipeline(7), Entity(External(0), 2), pass, InputError, [], External(1));
    assert ok && pass.commands == [];
  }

  /** A path the tessellator cannot resolve draws nothing and fails. */
  method RenderUnresolvablePathScenario(red: Color, points: seq<Point>)
  {
    var contents := new LinearGradientContents();
    contents.SetColors([red]);
    var pass := new RenderPass(ISize(640, 480), true);
    var ok := contents.Render(Pipeline(7), Entity(External(0), 2), pass, TessellationError, points, External(1));
    assert !ok && pass.commands == [];
  }
}
