/** Value types the linear gradient contents works with: points, sizes,
    colours, the tile mode and its numeric shader selector, and matrices.
    Coordinates and channels are reals; the single-precision rounding of
    the renderer's Scalar type is not modelled. */
module Geometry {

  datatype Option<T> = None | Some(value: T)

  /** A point in the contents' local space. The default point is the origin. */
  datatype Point = Point(x: real, y: real)

  function Origin(): Point { Point(0.0, 0.0) }

  /** The size, in pixels, of a render target. */
  datatype ISize = ISize(width: int, height: int)

  /** A matrix, kept as the term that produced it rather than its sixteen
      entries: a matrix handed over by a collaborator (an entity's
      transformation, a contents' inverse matrix), the orthographic
      projection of a render target of the given size, or a product.
      No contract here relies on two differently built matrices being
      distinct. */
  datatype Matrix =
    | External(handle: nat)
    | Orthographic(size: ISize)
    | Product(lhs: Matrix, rhs: Matrix)

  /** A colour with straight (not premultiplied) alpha. */
  datatype Color = Color(red: real, green: real, blue: real, alpha: real)

  /** Opaque black, the colour an empty colour list is filled with. */
  function Black(): (c: Color)
    ensures c.alpha == 1.0
  {
    Color(0.0, 0.0, 0.0, 1.0)
  }

  /** One channel scaled by alpha. */
  function Scale(x: real, a: real): (r: real)
    ensures a == 1.0 ==> r == x
    ensures a == 0.0 || x == 0.0 ==> r == 0.0
  {
    x * a
  }

  /** Premultiplies the colour channels by alpha, the form the fragment
      stage composites with. */
  function Premultiply(c: Color): (p: Color)
    ensures p.alpha == c.alpha
    ensures c.alpha == 1.0 ==> p == c
    ensures c.alpha == 0.0 ==> p == Color(0.0, 0.0, 0.0, 0.0)
    ensures c.red == 0.0 && c.green == 0.0 && c.blue == 0.0 ==> p.red == p.green == p.blue == 0.0
  {
    Color(Scale(c.red, c.alpha), Scale(c.green, c.alpha), Scale(c.blue, c.alpha), c.alpha)
  }

  /** How the gradient is sampled outside the interval between its end points. */
  datatype TileMode = Clamp | Repeat | Mirror | Decal

  /** The numeric selector the shader receives for a tile mode: the
      enumerator's position in the declaration, converted to a scalar. */
  function TileModeCode(mode: TileMode): (code: real)
    ensures 0.0 <= code <= 3.0
    ensures TileModeFromCode(code) == Some(mode)
  {
    match mode
    case Clamp => 0.0
    case Repeat => 1.0
    case Mirror => 2.0
    case Decal => 3.0
  }

  /** The tile mode a selector stands for, or None for a value that
      encodes no tile mode. */
  function TileModeFromCode(code: real): (mode: Option<TileMode>)
    ensures mode.Some? <==> code == 0.0 || code == 1.0 || code == 2.0 || code == 3.0
  {
    if code == 0.0 then Some(Clamp)
    else if code == 1.0 then Some(Repeat)
    else if code == 2.0 then Some(Mirror)
    else if code == 3.0 then Some(Decal)
    else None
  }

  /** Decoding inverts encoding: a code that decodes to a tile mode is that
      mode's code, so no two tile modes share a selector. */
  lemma TileModeCodeRoundTrip(code: real, mode: TileMode)
    ensures TileModeFromCode(code) == Some(mode) <==> TileModeCode(mode) == code
  {
  }
}
