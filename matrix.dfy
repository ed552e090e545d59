/** The ragged character matrix, positions in it, and one-cell steps. */
module Matrix {
  import opened Outcomes
  import opened Glyphs

  /** Rows of fields; rows may differ in length. */
  type Grid = seq<seq<Cell>>

  /** The source's `[row, column]` pair. */
  datatype Position = Position(row: int, col: int)

  /** The values of the `directions` object; its `NONE` is `Option.None`. */
  datatype Direction = Up | Right | Down | Left

  /** In bounds for its own row: ragged rows make the bound row-specific. */
  predicate InBounds(m: Grid, p: Position) {
    0 <= p.row < |m| && 0 <= p.col < |m[p.row]|
  }

  /** `matrix[row][col]`, with `None` where JavaScript yields `undefined`. */
  function CellAt(m: Grid, p: Position): Option<Cell> {
    if InBounds(m, p) then Some(m[p.row][p.col]) else None
  }

  /** True when the field at `p` exists and holds a track glyph. */
  predicate IsGlyphAt(m: Grid, p: Position) {
    CellAt(m, p).Some? && IsValidGlyph(CellAt(m, p).value)
  }

  /** True when the field at `p` exists and holds a station letter. */
  predicate IsLetterAt(m: Grid, p: Position) {
    CellAt(m, p).Some? && IsValidLetter(CellAt(m, p).value)
  }

  predicate IsVertical(d: Direction) {
    d == Up || d == Down
  }

  function Opposite(d: Direction): (r: Direction)
    ensures r != d && IsVertical(r) == IsVertical(d)
  {
    match d
    case Up => Down
    case Down => Up
    case Left => Right
    case Right => Left
  }

  /** The position part of `getNewPositionData`: one field away in direction `d`. */
  function Neighbour(p: Position, d: Direction): (q: Position)
    ensures IsVertical(d) ==> q.col == p.col && q.row == p.row + (if d == Up then -1 else 1)
    ensures !IsVertical(d) ==> q.row == p.row && q.col == p.col + (if d == Left then -1 else 1)
  {
    match d
    case Up => Position(p.row - 1, p.col)
    case Right => Position(p.row, p.col + 1)
    case Down => Position(p.row + 1, p.col)
    case Left => Position(p.row, p.col - 1)
  }

  /** Two positions one field apart horizontally or vertically. */
  predicate Adjacent(p: Position, q: Position) {
    || (p.row == q.row && (q.col == p.col + 1 || q.col == p.col - 1))
    || (p.col == q.col && (q.row == p.row + 1 || q.row == p.row - 1))
  }

  /** A step and the opposite step cancel, and every step reaches an adjacent field. */
  lemma StepThenOppositeStepReturns(p: Position, d: Direction)
    ensures Neighbour(Neighbour(p, d), Opposite(d)) == p
    ensures Adjacent(p, Neighbour(p, d))
  {
  }

  /** The four steps reach four different fields. */
  lemma StepsAreDistinct(p: Position, d: Direction, e: Direction)
    ensures Neighbour(p, d) == Neighbour(p, e) <==> d == e
  {
  }
}
