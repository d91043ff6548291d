/** The scene's value types: screen geometry, colours and point charges.
    Every coordinate the visualizer handles is a whole pixel (mouse positions,
    grid samples and the tracer's integer steps), so positions are `int`. */
module Charges {

  datatype Option<+T> = None | Some(value: T)

  /** Size of the render surface in pixels. */
  const WIDTH: int := 800
  const HEIGHT: int := 600

  datatype Point = Point(x: int, y: int)

  /** True when `p` lies on the render surface, `[0, WIDTH) x [0, HEIGHT)`. */
  predicate InDomain(p: Point) {
    0 <= p.x < WIDTH && 0 <= p.y < HEIGHT
  }

  datatype Color = Rgb(r: int, g: int, b: int)

  const POSITIVE_CHARGE_COLOR: Color := Rgb(255, 0, 0)
  const NEGATIVE_CHARGE_COLOR: Color := Rgb(0, 0, 255)

  /** A point charge: position, signed magnitude and the colour fixed when it was placed. */
  datatype Charge = Charge(x: int, y: int, q: int, color: Color)

  /** The colour a new charge gets from the sign currently selected. */
  function ColorFor(sign: int): (c: Color)
    ensures c == POSITIVE_CHARGE_COLOR <==> sign > 0
    ensures c == NEGATIVE_CHARGE_COLOR <==> sign <= 0
  {
    if sign > 0 then POSITIVE_CHARGE_COLOR else NEGATIVE_CHARGE_COLOR
  }

  /** A charge as the scene places it: non-zero, coloured by its own sign. */
  predicate WellFormed(c: Charge) {
    c.q != 0 && c.color == ColorFor(c.q)
  }
}
