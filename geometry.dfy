/** Integer rectangles as the canvas receives them: the two corners in the order they were passed. */
module Geometry {

  /** Coordinates `x1, y1, x2, y2` exactly as handed to `create_oval` / `create_rectangle`. */
  datatype Box = Box(x1: int, y1: int, x2: int, y2: int)

  function Min(a: int, b: int): int { if a <= b then a else b }
  function Max(a: int, b: int): int { if a <= b then b else a }

  /** The box Tk actually keeps for a rectangle or oval: it swaps corners so that x1 <= x2, y1 <= y2. */
  function Normalize(b: Box): (r: Box)
    ensures r.x1 <= r.x2 && r.y1 <= r.y2
    ensures (r.x1 == b.x1 && r.x2 == b.x2) || (r.x1 == b.x2 && r.x2 == b.x1)
    ensures (r.y1 == b.y1 && r.y2 == b.y2) || (r.y1 == b.y2 && r.y2 == b.y1)
  {
    Box(Min(b.x1, b.x2), Min(b.y1, b.y2), Max(b.x1, b.x2), Max(b.y1, b.y2))
  }

  /** Grow a box by `m` on every side. */
  function Expand(b: Box, m: int): (r: Box)
    ensures r.x2 - r.x1 == b.x2 - b.x1 + 2 * m
    ensures r.y2 - r.y1 == b.y2 - b.y1 + 2 * m
    ensures r.x1 + r.x2 == b.x1 + b.x2 && r.y1 + r.y2 == b.y1 + b.y2
  {
    Box(b.x1 - m, b.y1 - m, b.x2 + m, b.y2 + m)
  }
}
