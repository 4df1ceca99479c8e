/**
 * Two places where `wumpus.py` does not do what it evidently means to, each
 * modelled as written beside an input that shows the discrepancy. The rest of
 * the model uses the corrected definitions in `WumpusWorld`.
 */
module Findings {
  import opened WumpusWorld

  function Max(a: int, b: int): int { if a >= b then a else b }

  function Min(a: int, b: int): int { if a <= b then a else b }

  /**
   * The clamp arithmetic of `_clip` as written: both coordinates are taken
   * from the x component, and each is clamped to [1, max] with max the grid's
   * width or height. Only the arithmetic is modelled: the source hands the
   * second value to `np.array` as its dtype, which fails, and the function
   * returns nothing in any case.
   */
  function ClipAsWritten(p: Cell, maxX: int, maxY: int): (r: Cell)
    ensures 1 <= r.x && 1 <= r.y
    ensures maxX >= 1 ==> r.x <= maxX
    ensures maxY >= 1 ==> r.y <= maxY
    ensures maxX == maxY ==> r.x == r.y
  {
    Cell(Max(Min(p.x, maxX), 1), Max(Min(p.x, maxY), 1))
  }

  /**
   * On a 3 x 3 grid the as-written clamp moves the corner (0, 0), a state the
   * enumeration lists, to (1, 1), and turns the step right from (2, 0) into
   * (3, 3), off the grid; the corrected clamp leaves the first alone and
   * keeps the second at (2, 0).
   */
  lemma ClipAsWrittenLeavesGrid(w: World)
    requires w.width == 3 && w.height == 3
    ensures ClipAsWritten(Cell(0, 0), w.width, w.height) == Cell(1, 1)
    ensures ClipCell(w, Cell(0, 0)) == Cell(0, 0)
    ensures ClipAsWritten(Cell(3, 0), w.width, w.height) == Cell(3, 3) && !CellInGrid(w, Cell(3, 3))
    ensures ClipCell(w, Cell(3, 0)) == Cell(2, 0)
  {
  }

  /** `move` as written: the reward and terminal flag are computed and then dropped; only the new state is returned. */
  function MoveAsWritten(w: World, s: State, a: Action, d: Draw): (r: State)
    requires a.IsMove()
    ensures r == Destination(w, s, a, d)
    ensures r.hasGold == s.hasGold && r.hasImmunity == s.hasImmunity
  {
    Move(w, s, a, d).next
  }

  /**
   * What `move` returns as written does not depend on the goal and wumpus
   * registries at all, so no caller can learn that an episode ended or what
   * it paid.
   */
  lemma MoveAsWrittenForgetsOutcome(w: World, s: State, a: Action, d: Draw)
    requires a.IsMove()
    ensures MoveAsWritten(w, s, a, d) == MoveAsWritten(w.(goal := map[], wumpus := map[]), s, a, d)
  {
  }

  /**
   * Entering a wumpus cell without immunity: the corrected `move` ends the
   * episode with the wumpus's payoff, while the as-written one returns the
   * same value as in a world with no wumpus.
   */
  lemma MoveAsWrittenHidesWumpus(w: World)
    requires w.width == 3 && w.height == 3 && w.cost == 1 && w.wumpus == map[Cell(1, 1) := -10]
    ensures MoveAsWritten(w, State(1, 0, false, false), Down, 0)
      == MoveAsWritten(w.(wumpus := map[]), State(1, 0, false, false), Down, 0)
    ensures var r := Move(w, State(1, 0, false, false), Down, 0);
      r.terminal && r.reward == -10
    ensures !Move(w.(wumpus := map[]), State(1, 0, false, false), Down, 0).terminal
  {
    assert Vector(Down) == Offset(0, 1);
    assert Destination(w, State(1, 0, false, false), Down, 0) == State(1, 1, false, false);
    assert Destination(w.(wumpus := map[]), State(1, 0, false, false), Down, 0) == State(1, 1, false, false);
  }
}
