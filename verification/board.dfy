/**
 The maze board of MazeBlock: a grid of integer tile codes (GameView's `map`),
 cell positions (`playerRow`/`playerCol`) and the four swipe directions.
 */
module Board {

  /** Tile codes as they appear in the level tables. */
  const Floor := 0
  const Wall := 1
  const Goal := 2

  /** Row-major grid of tile codes; row 0 is the top row. */
  type Grid = seq<seq<int>>

  datatype Pos = Pos(row: int, col: int)

  datatype Direction = Up | Down | Left | Right

  /** Row and column increments passed to `movePlayer` for each direction. */
  function DRow(d: Direction): int {
    match d
    case Up => -1
    case Down => 1
    case Left => 0
    case Right => 0
  }

  function DCol(d: Direction): int {
    match d
    case Up => 0
    case Down => 0
    case Left => -1
    case Right => 1
  }

  /** Every row is as long as row 0: the column bound is read from row 0 only. */
  predicate Rectangular(g: Grid) {
    forall i :: 0 <= i < |g| ==> |g[i]| == |g[0]|
  }

  /** Number of columns, read from row 0 as the game does. */
  function Cols(g: Grid): nat {
    if |g| == 0 then 0 else |g[0]|
  }

  /** The bounds test of the slide loop; row 0 is only consulted once the row is in range. */
  predicate InBounds(g: Grid, p: Pos) {
    0 <= p.row < |g| && 0 <= p.col < |g[0]|
  }

  function TileAt(g: Grid, p: Pos): int
    requires Rectangular(g) && InBounds(g, p)
  {
    g[p.row][p.col]
  }

  /** A cell the token can enter: on the board and not a wall. */
  predicate Open(g: Grid, p: Pos)
    requires Rectangular(g)
  {
    InBounds(g, p) && TileAt(g, p) != Wall
  }

  /** A cell the token can pass through without stopping: open and not a goal. */
  predicate PassThrough(g: Grid, p: Pos)
    requires Rectangular(g)
  {
    Open(g, p) && TileAt(g, p) != Goal
  }

  /** The neighbour one cell away in direction `d`. */
  function Step(p: Pos, d: Direction): (q: Pos)
    ensures q.row - p.row == DRow(d) && q.col - p.col == DCol(d)
  {
    Shift(p, d, 1)
  }

  /** The cell `k` cells away from `p` in direction `d`. */
  function Shift(p: Pos, d: Direction, k: int): Pos {
    match d
    case Up => Pos(p.row - k, p.col)
    case Down => Pos(p.row + k, p.col)
    case Left => Pos(p.row, p.col - k)
    case Right => Pos(p.row, p.col + k)
  }

  /** Signed number of cells from `p` to `q` measured along direction `d`. */
  function Dist(p: Pos, q: Pos, d: Direction): int {
    match d
    case Up => p.row - q.row
    case Down => q.row - p.row
    case Left => p.col - q.col
    case Right => q.col - p.col
  }

  lemma ShiftStep(p: Pos, d: Direction, k: int)
    ensures Shift(Step(p, d), d, k) == Shift(p, d, k + 1)
    ensures Dist(p, Shift(p, d, k), d) == k
  {
  }

  /** Every cell of the ray from `p` lies on the ray from its first step. */
  lemma ShiftFromStep(p: Pos, d: Direction)
    ensures forall j :: Shift(p, d, j) == Shift(Step(p, d), d, j - 1)
  {
  }
}
