# Linear gradient contents

A model of `LinearGradientContents`, the Impeller contents that fills a
path with a two-colour linear gradient. A contents holds the gradient's two
end points, its colour list and its tile mode. Its `Render` asks the
tessellator for a triangle mesh of the path. It then builds one draw
command for the linear gradient fill pipeline and submits that command to
the render pass.

The model has three modules:

- `Geometry` (`geometry.dfy`): points, render target sizes, colours,
  premultiplication, and the tile mode with its numeric shader selector.
  Matrices are kept as the terms that built them, so the model states how
  each uniform matrix is composed without computing its entries.
- `Rendering` (`render_pass.dfy`): the shader's vertex and uniform records,
  the draw command, the entity, the three tessellation outcomes, and a
  `RenderPass` class. The pass records each submitted command in order and
  answers with its `accept` flag.
- `LinearGradient` (`linear_gradient_contents.dfy`): the
  `LinearGradientContents` class with its setters, `GetColors` and
  `Render`. It also holds `NormalizeColors`, the function that specifies
  what `SetColors` stores, and `CollectVertices`, the loop the tessellation
  callback performs.

`SetColors` keeps the colour list at two or more entries. An empty list
becomes two opaque blacks, and a single colour is duplicated. `Render` reads
`colors_[0]` and `colors_[1]` without checking. A default-constructed
contents has an empty colour list, because its constructor is `= default`.
Only the success path reads the colours: an input error or a tessellation
error returns before they are read. So a successful `Render` is only safe
after `SetColors` has run. The model writes this as
`requires result == Success ==> |colors| >= 2` on `Render`. `SetColors`
ensures at least two colours, so every caller that sets the colours first
meets it. The client methods `RenderSquareScenario`, `RenderNoColorsScenario`,
`RenderEmptyPathScenario` and `RenderUnresolvablePathScenario` check these
sequences of calls.

What `Render` does depends on the tessellation outcome:

- An input error returns true and submits nothing.
- A tessellation error returns false and submits nothing.
- On success, exactly one command is appended and the pass's answer is
  returned unchanged. The command holds every emitted point, in emission
  order. It also holds the stored end points, the premultiplied first two
  colours, the tile mode's code, the entity's stencil depth and triangle
  topology.

The submitted command is fixed by the contents' fields, the entity, the
render target size, the pipeline, the tessellation outcome, the emitted points
and the inverse matrix. That the same path yields the same emitted points is
the tessellator's promise, and the tessellator is not part of this model.

## Model

| member | source | states |
|---|---|---|
| `LinearGradient.LinearGradientContents.constructor` | impeller/entity/contents/linear_gradient_contents.cc:15 | a new contents has both end points at the origin, no colours and clamped tiling |
| `LinearGradient.LinearGradientContents.SetEndPoints` | impeller/entity/contents/linear_gradient_contents.cc:19-22 | the two end points become the given ones; the colours and tile mode are unchanged |
| `LinearGradient.LinearGradientContents.SetColors` | impeller/entity/contents/linear_gradient_contents.cc:24-32 | the stored list becomes `NormalizeColors` of the argument, so `GetColors()` holds at least two colours afterwards; the end points and tile mode are unchanged |
| `LinearGradient.NormalizeColors` | impeller/entity/contents/linear_gradient_contents.cc:24-32 | at least two colours; `[]` becomes `[Black, Black]`, `[c]` becomes `[c, c]`, a list of two or more is kept unchanged and in order; the given list is always a prefix of the result |
| `LinearGradient.NormalizeColorsIdempotent` | impeller/entity/contents/linear_gradient_contents.cc:24-32 | normalising a normalised list changes nothing, so once `SetColors` has run, storing the list `GetColors` returned is a no-op |
| `LinearGradient.LinearGradientContents.SetTileMode` | impeller/entity/contents/linear_gradient_contents.cc:34-36 | the tile mode becomes the given one; the end points and colours are unchanged |
| `LinearGradient.LinearGradientContents.GetColors` | impeller/entity/contents/linear_gradient_contents.cc:38-40 | returns the stored list itself, with no normalisation at read time |
| `LinearGradient.CollectVertices` | impeller/entity/contents/linear_gradient_contents.cc:48-56 | the vertex buffer holds one vertex per emitted point, and vertex `i` sits at the `i`-th emitted point |
| `LinearGradient.LinearGradientContents.Render` | impeller/entity/contents/linear_gradient_contents.cc:42-90 | only a successful render needs two stored colours; input error: returns true, no command, whatever the colours; tessellation error: returns false, no command; success: exactly one command is appended and the pass's answer is returned; that command's vertices are the emitted points in order, its gradient uniform is (start, end, premultiplied colour 0, premultiplied colour 1, tile mode code), its frame uniform is (orthographic projection of the target size times the entity transformation, the inverse matrix), its stencil reference is the entity's stencil depth, its topology is triangles, and its pipeline is the one supplied |
| `LinearGradient.PremultipliedDefaultIsBlack` | impeller/entity/contents/linear_gradient_contents.cc:26-28 | both colours an empty list is padded with are still opaque black after premultiplication, so an empty list draws black at both ends |
| `Geometry.Black` | impeller/entity/contents/linear_gradient_contents.cc:27-28 | the default colour is opaque |
| `Geometry.Premultiply` | impeller/entity/contents/linear_gradient_contents.cc:74-75 | alpha is kept; an opaque colour is unchanged; a fully transparent colour becomes transparent black; black channels stay black |
| `Geometry.TileModeCode` | impeller/entity/contents/linear_gradient_contents.cc:76 | the selector lies in [0, 3] and decodes back to the same tile mode |
| `Geometry.TileModeFromCode` | impeller/entity/contents/linear_gradient_contents.cc:76 | exactly the four codes 0, 1, 2 and 3 decode to a tile mode |
| `Geometry.TileModeCodeRoundTrip` | impeller/entity/contents/linear_gradient_contents.cc:76 | a code decodes to a tile mode exactly when it is that mode's code, so distinct tile modes get distinct selectors |
| `Rendering.RenderPass.AddCommand` | impeller/entity/contents/linear_gradient_contents.cc:89 | the command is appended after those already submitted and the pass's accept flag is returned |

## Left out

- LinearGradient.LinearGradientContents.Render: a successful render on a contents whose colours were never set reads `colors_[0]` and `colors_[1]` out of bounds in the source; the model requires at least two colours on the success path instead of modelling that read.
- Tessellation: `Tessellator::Tessellate`, the path's fill type and `CreatePolyline` are not part of this model. `Render` takes the tessellator's outcome and the points it emitted as parameters.
- Floating point: colours, points and the tile mode selector are reals. Single-precision rounding in `Premultiply` and in the selector conversion is not modelled.
- Matrix arithmetic: `Matrix::MakeOrthographic`, the matrix product and `GetInverseMatrix` are symbolic terms (`Orthographic`, `Product`, `External`). The inverse matrix belongs to the contents' base class, which is not part of this model, so `Render` takes it as a parameter.
- Pipeline selection: `GetLinearGradientFillPipeline(OptionsFromPassAndEntity(...))` is a collaborator. `Render` takes the chosen pipeline as an opaque handle.
- Transient buffers: `GetTransientsBuffer`, `EmplaceUniform`, `CreateVertexBuffer`, `BindGradientInfo` and `BindFrameInfo` are not modelled as allocations. The command holds the vertex list and the two uniform records by value. Uniform memory layout and alignment are not modelled.
- The command label `"LinearGradientFill"` is a diagnostic string and is not modelled.
- Render pass internals: the model's pass records every submitted command and answers with an abstract `accept` flag. Why a real pass refuses a command is not modelled.
- Tile mode codes: the enumeration's declaration is not part of this model. The selector is taken to be the enumerator's declaration position (clamp, repeat, mirror, decal give 0 to 3).
- Constructor defaults: the header that declares the fields is not part of this model. The end points default to the origin and the colour list to empty, as default construction gives. The header that initialises the tile mode is not part of this model; the model starts a contents with clamped tiling.
- The vertex buffer builder is modelled as the list that `CollectVertices` returns, not as a separate object updated in place.
