/**
 The slide resolver of `GameView.movePlayer`: from the player's cell the token
 steps one cell at a time in the swipe direction, stops in front of the board
 edge or a wall, and stops on the first goal cell it enters.
 */
module Resolver {
  import opened Board

  /** Where a slide ends and whether the last cell entered was a goal. */
  datatype Outcome = Outcome(pos: Pos, reachedGoal: bool)

  /** Cells left between `p` and the board edge in direction `d`; the termination measure of the slide. */
  function StepsLeft(g: Grid, p: Pos, d: Direction): nat {
    match d
    case Up => if p.row > 0 then p.row else 0
    case Down => if |g| - 1 - p.row > 0 then |g| - 1 - p.row else 0
    case Left => if p.col > 0 then p.col else 0
    case Right => if Cols(g) - 1 - p.col > 0 then Cols(g) - 1 - p.col else 0
  }

  /**
   The resolver as a recursive function. The start cell is never inspected:
   the token may start anywhere, even off the board, and only the cells it
   steps into are looked at.
   */
  function Slide(g: Grid, p: Pos, d: Direction): (r: Outcome)
    requires Rectangular(g)
    // the token moves along the ray only, never backwards
    ensures 0 <= Dist(p, r.pos, d) && r.pos == Shift(p, d, Dist(p, r.pos, d))
    // it ends where it started or on an enterable cell
    ensures r.pos == p || Open(g, r.pos)
    // every cell before the last one is entered and left: neither wall nor goal
    ensures forall j :: 1 <= j < Dist(p, r.pos, d) ==> PassThrough(g, Shift(p, d, j))
    // the goal flag is raised exactly when it moved and stopped on a goal
    ensures r.reachedGoal <==> r.pos != p && InBounds(g, r.pos) && TileAt(g, r.pos) == Goal
    // a slide that did not end on a goal went as far as it could
    ensures !r.reachedGoal ==> !Open(g, Step(r.pos, d))
    // a blocked neighbour makes the move a no-op
    ensures !Open(g, Step(p, d)) ==> r == Outcome(p, false)
    decreases StepsLeft(g, p, d)
  {
    var next := Step(p, d);
    if !Open(g, next) then
      Outcome(p, false)
    else if TileAt(g, next) == Goal then
      Outcome(next, true)
    else
      var r := Slide(g, next, d);
      ShiftStep(p, d, Dist(next, r.pos, d));
      ShiftFromStep(p, d);
      r
  }

  /**
   The stopping rule stated declaratively: `o` is reached from `p` after `k`
   cells, all cells before it are passed through, and either `o` is the first
   goal entered or the cell after `o` cannot be entered.
   */
  predicate SlideStop(g: Grid, p: Pos, d: Direction, o: Outcome)
    requires Rectangular(g)
  {
    var k := Dist(p, o.pos, d);
    && 0 <= k
    && o.pos == Shift(p, d, k)
    && (forall j :: 1 <= j < k ==> PassThrough(g, Shift(p, d, j)))
    && if o.reachedGoal then
         1 <= k && Open(g, o.pos) && TileAt(g, o.pos) == Goal
       else
         (k == 0 || PassThrough(g, o.pos)) && !Open(g, Step(o.pos, d))
  }

  /** The resolver computes exactly the outcome the stopping rule describes, and no other. */
  lemma SlideCharacterized(g: Grid, p: Pos, d: Direction, o: Outcome)
    requires Rectangular(g)
    ensures SlideStop(g, p, d, o) <==> Slide(g, p, d) == o
  {
    if SlideStop(g, p, d, o) {
      SlideStopUnique(g, p, d, o);
    }
  }

  lemma {:induction false} SlideStopUnique(g: Grid, p: Pos, d: Direction, o: Outcome)
    requires Rectangular(g)
    requires SlideStop(g, p, d, o)
    ensures Slide(g, p, d) == o
    decreases Dist(p, o.pos, d)
  {
    var k := Dist(p, o.pos, d);
    var next := Step(p, d);
    if k == 0 {
      assert o.pos == p;
    } else {
      assert next == Shift(p, d, 1);
      assert Open(g, next);
      if TileAt(g, next) == Goal {
        assert k == 1;
      } else {
        assert Dist(next, o.pos, d) == k - 1;
        forall j | 1 <= j < k - 1
          ensures PassThrough(g, Shift(next, d, j))
        {
          ShiftStep(p, d, j);
        }
        ShiftStep(p, d, k - 1);
        SlideStopUnique(g, next, d, o);
      }
    }
  }

  /** A slide that ended off a goal is at a fixed point: the same swipe again does nothing. */
  lemma ReapplyIsNoOp(g: Grid, p: Pos, d: Direction)
    requires Rectangular(g)
    requires !Slide(g, p, d).reachedGoal
    ensures Slide(g, Slide(g, p, d).pos, d) == Outcome(Slide(g, p, d).pos, false)
  {
  }

  /** A 4 by 4 room with one goal: walls all round, floor at (1,1), (1,2), (2,1), goal at (2,2). */
  const Room: Grid := [[1, 1, 1, 1], [1, 0, 0, 1], [1, 0, 2, 1], [1, 1, 1, 1]]

  /** Slides in the room: each floor slide stops against the wall, the slide into the goal stops on it. */
  lemma RoomSlides()
    ensures Slide(Room, Pos(1, 1), Right) == Outcome(Pos(1, 2), false)
    ensures Slide(Room, Pos(1, 1), Down) == Outcome(Pos(2, 1), false)
    ensures Slide(Room, Pos(2, 1), Right) == Outcome(Pos(2, 2), true)
    ensures Slide(Room, Pos(1, 1), Up) == Outcome(Pos(1, 1), false)
  {
  }

  /** Replaces one tile of the grid. */
  function SetTile(g: Grid, p: Pos, code: int): (h: Grid)
    requires Rectangular(g) && InBounds(g, p)
    ensures Rectangular(h) && |h| == |g| && Cols(h) == Cols(g)
    ensures forall q :: InBounds(g, q) && q != p ==> TileAt(h, q) == TileAt(g, q)
  {
    g[p.row := g[p.row][p.col := code]]
  }

  /** The kind of the start cell never matters: changing it leaves the slide unchanged. */
  lemma StartTileIgnored(g: Grid, p: Pos, d: Direction, code: int)
    requires Rectangular(g) && InBounds(g, p)
    ensures Slide(SetTile(g, p, code), p, d) == Slide(g, p, d)
  {
    var h := SetTile(g, p, code);
    var o := Slide(g, p, d);
    SlideCharacterized(g, p, d, o);
    var k := Dist(p, o.pos, d);
    forall j | 1 <= j
      ensures Shift(p, d, j) != p
    {
    }
    assert Step(o.pos, d) == Shift(p, d, k + 1) by {
      ShiftStep(p, d, k);
    }
    assert SlideStop(h, p, d, o);
    SlideCharacterized(h, p, d, o);
  }

  /**
   The loop of `movePlayer`, statement for statement: step, stop before the
   edge or a wall, otherwise enter the cell and stop if it is a goal.
   */
  method MovePlayer(g: Grid, playerRow: int, playerCol: int, d: Direction)
    returns (row: int, col: int, enteredGoal: bool)
    requires Rectangular(g)
    ensures Slide(g, Pos(playerRow, playerCol), d) == Outcome(Pos(row, col), enteredGoal)
  {
    var dRow, dCol := DRow(d), DCol(d);
    var tempRow, tempCol := playerRow, playerCol;
    enteredGoal := false;
    while true
      invariant Slide(g, Pos(tempRow, tempCol), d) == Slide(g, Pos(playerRow, playerCol), d)
      decreases StepsLeft(g, Pos(tempRow, tempCol), d)
    {
      var nextRow, nextCol := tempRow + dRow, tempCol + dCol;
      if nextRow < 0 || nextRow >= |g| || nextCol < 0 || nextCol >= |g[0]| {
        break;
      }
      if g[nextRow][nextCol] == Wall {
        break;
      }
      tempRow, tempCol := nextRow, nextCol;
      if g[tempRow][tempCol] == Goal {
        enteredGoal := true;
        break;
      }
    }
    row, col := tempRow, tempCol;
  }
}
