/**
 * Properties of the transition model: the support of the movement noise,
 * how clamping turns a step into either a unit move or no move, the reward
 * priority, what picking up does, and the invariants every episode keeps.
 */
module TransitionProperties {
  import opened WumpusWorld

  function Abs(n: int): nat {
    if n < 0 then -n else n
  }

  /** How far a transition moved the agent. */
  function Displacement(s: State, t: State): Offset {
    Offset(t.x - s.x, t.y - s.y)
  }

  /**
   * The three directions `move` may realise for an intended direction are
   * exactly that direction and its two perpendiculars; the opposite
   * direction is never among them.
   */
  lemma AlternativesAreIntendedOrPerpendicular(a: Action)
    requires a.IsMove()
    ensures forall b: Action :: b.IsMove() ==> (b in Alternatives(a) <==> b == a || Perpendicular(a, b))
    ensures Opposite(a) !in Alternatives(a)
  {
    forall b: Action | b.IsMove()
      ensures b in Alternatives(a) <==> b == a || Perpendicular(a, b)
    {
      var alts := Alternatives(a);
      assert alts == [alts[0], alts[1], alts[2]];
      if b != a && b != Opposite(a) {
        assert b == alts[1] || b == alts[2] by {
          match a
          case Up => assert b == Left || b == Right;
          case Down => assert b == Left || b == Right;
          case Left => assert b == Up || b == Down;
          case Right => assert b == Up || b == Down;
        }
      }
      if b == Opposite(a) {
        assert !Perpendicular(a, b) && b != a;
        assert b != alts[0] && b != alts[1] && b != alts[2];
      }
    }
  }

  /**
   * Every candidate direction is realised by some draw, and only candidates
   * are: the draw ranges over the whole of `alst`, so the perpendiculars are
   * reachable outcomes of `move`, not just permitted ones.
   */
  lemma RealisedCoversAlternatives(a: Action)
    requires a.IsMove()
    ensures forall b :: b in Alternatives(a) <==> exists d: Draw :: Realised(a, d) == b
  {
    forall b | b in Alternatives(a) ensures exists d: Draw :: Realised(a, d) == b {
      var i :| 0 <= i < 3 && Alternatives(a)[i] == b;
      var d: Draw := i;
      assert Realised(a, d) == b;
    }
  }

  /**
   * From a state on the grid, the new position is the old one shifted by the
   * realised direction when that target is on the grid, and the old position
   * when clamping absorbs the step.
   */
  lemma MoveStepOrStay(w: World, s: State, a: Action, d: Draw)
    requires InGrid(w, s) && a.IsMove()
    ensures var t := Shift(s.Pos(), Vector(Realised(a, d)));
      Move(w, s, a, d).next.Pos() == if CellInGrid(w, t) then t else s.Pos()
  {
    var v := Vector(Realised(a, d));
    var t := Shift(s.Pos(), v);
    var p := Move(w, s, a, d).next.Pos();
    assert p == ClipCell(w, t);
    if !CellInGrid(w, t) {
      if v.dx == 0 {
        assert p.x == s.x;
        assert t.y == -1 || t.y == w.height;
      } else {
        assert p.y == s.y;
        assert t.x == -1 || t.x == w.width;
      }
    }
  }

  /** A move changes at most one coordinate, by at most one. */
  lemma MoveIsUnitOrNone(w: World, s: State, a: Action, d: Draw)
    requires InGrid(w, s) && a.IsMove()
    ensures var m := Displacement(s, Move(w, s, a, d).next);
      Abs(m.dx) + Abs(m.dy) <= 1
  {
    MoveStepOrStay(w, s, a, d);
  }

  /** Because the opposite direction is never drawn, a move never takes the agent against the intended direction. */
  lemma MoveNeverBacktracks(w: World, s: State, a: Action, d: Draw)
    requires InGrid(w, s) && a.IsMove()
    ensures var m := Displacement(s, Move(w, s, a, d).next);
      && (Vector(a).dx < 0 ==> m.dx <= 0) && (Vector(a).dx > 0 ==> m.dx >= 0)
      && (Vector(a).dy < 0 ==> m.dy <= 0) && (Vector(a).dy > 0 ==> m.dy >= 0)
  {
    MoveStepOrStay(w, s, a, d);
    AlternativesAreIntendedOrPerpendicular(a);
    var b := Realised(a, d);
    assert b != Opposite(a) by {
      assert b == Alternatives(a)[d];
    }
    var m := Displacement(s, Move(w, s, a, d).next);
    assert m == Offset(0, 0) || m == Vector(b);
    match a
    case Up => assert m.dy <= 0;
    case Down => assert m.dy >= 0;
    case Left => assert m.dx <= 0;
    case Right => assert m.dx >= 0;
  }

  /** With immunity, only delivering gold to a goal ends the episode; a wumpus cell costs a normal step. */
  lemma ImmunityMakesWumpusSafe(w: World, s: State, a: Action, d: Draw)
    requires a.IsMove() && s.hasImmunity
    ensures var r := Move(w, s, a, d);
      r.terminal <==> s.hasGold && w.HasAt(Goal, r.next.Pos())
    ensures var r := Move(w, s, a, d);
      !(s.hasGold && w.HasAt(Goal, r.next.Pos())) ==> r.reward == -w.cost
  {
  }

  /** On a cell that is both a goal and a wumpus, carrying gold wins: the goal payoff is paid even without immunity. */
  lemma GoalOutranksWumpus(w: World, s: State, a: Action, d: Draw)
    requires a.IsMove() && s.hasGold
    requires var p := Move(w, s, a, d).next.Pos(); w.HasAt(Goal, p) && w.HasAt(Wumpus, p)
    ensures var r := Move(w, s, a, d);
      r.terminal && r.reward == w.RewardAt(Goal, r.next.Pos())
  {
  }

  /** `PICK_UP` changes the state exactly when `actions_at` offers it. */
  lemma PickUpEffectiveIffOffered(w: World, s: State)
    ensures PickUpItem(w, s) != s <==> PickUp in ActionsAt(w, s)
  {
  }

  /** One cell yields at most two items: after two pick-ups a third changes nothing, and nothing is left to offer. */
  lemma PickUpSettlesAfterTwo(w: World, s: State)
    ensures var t := PickUpItem(w, PickUpItem(w, s));
      PickUpItem(w, t) == t && PickUp !in ActionsAt(w, t)
  {
  }

  /** Every action `actions_at` offers is accepted by `act`. */
  lemma OfferedActionsAccepted(w: World, s: State, d: Draw)
    ensures forall a :: a in ActionsAt(w, s) ==> Act(w, s, Known(a), d).Ok?
  {
  }

  /** One transition keeps the agent on the grid and never clears a flag. */
  lemma ActKeepsGridAndFlags(w: World, s: State, sym: Symbol, d: Draw)
    requires InGrid(w, s)
    ensures Act(w, s, sym, d).Ok? ==>
      var t := Act(w, s, sym, d).value.next;
      InGrid(w, t) && (s.hasGold ==> t.hasGold) && (s.hasImmunity ==> t.hasImmunity)
  {
  }

  /** Over any sequence of actions and draws, the agent stays on the grid and its flags only ever go from false to true. */
  lemma {:induction false} RunKeepsGridAndFlags(w: World, s: State, steps: seq<(Symbol, Draw)>)
    requires InGrid(w, s)
    ensures var t := Run(w, s, steps);
      InGrid(w, t) && (s.hasGold ==> t.hasGold) && (s.hasImmunity ==> t.hasImmunity)
    decreases |steps|
  {
    if steps != [] {
      ActKeepsGridAndFlags(w, s, steps[0].0, steps[0].1);
      match Act(w, s, steps[0].0, steps[0].1)
      case Err(_) => RunKeepsGridAndFlags(w, s, steps[1..]);
      case Ok(o) =>
        if !o.terminal {
          RunKeepsGridAndFlags(w, o.next, steps[1..]);
        }
    }
  }

  /**
   * From the left edge, `LEFT` never changes x whatever the draw: the intended
   * step is clamped back to column 0, and the perpendicular steps are vertical.
   */
  lemma LeftEdgeIsAWall(w: World, s: State, d: Draw)
    requires InGrid(w, s) && s.x == 0
    ensures Move(w, s, Left, d).next.x == 0
  {
    MoveStepOrStay(w, s, Left, d);
    assert Alternatives(Left) == [Left, Up, Down];
    assert Realised(Left, d) in [Left, Up, Down];
  }

  /**
   * `gold_at` and `immunity_at` hold on a cell exactly while the item is
   * registered there and its flag is not yet set; each ignores the other
   * flag, and registering an item elsewhere does not change the answer.
   */
  lemma ItemQueriesFollowRegistryAndFlag(w: World, s: State, q: Cell, v: int, b: bool)
    ensures !w.HasAt(Gold, s.Pos()) ==> !GoldAt(w, s)
    ensures !w.HasAt(Immune, s.Pos()) ==> !ImmunityAt(w, s)
    ensures GoldAt(w.Register(Gold, s.Pos(), v), s) <==> !s.hasGold
    ensures ImmunityAt(w.Register(Immune, s.Pos(), v), s) <==> !s.hasImmunity
    ensures !GoldAt(w, s.(hasGold := true)) && !ImmunityAt(w, s.(hasImmunity := true))
    ensures GoldAt(w, s.(hasImmunity := b)) == GoldAt(w, s) && ImmunityAt(w, s.(hasGold := b)) == ImmunityAt(w, s)
    ensures q != s.Pos() ==>
      GoldAt(w.Register(Gold, q, v), s) == GoldAt(w, s) && ImmunityAt(w.Register(Immune, q, v), s) == ImmunityAt(w, s)
  {
  }

  /** Draw 0 realises the intended direction: when its target is on the grid and holds no hazard or goal, the step costs `cost`. */
  lemma PlainIntendedStep(w: World, s: State, a: Action, t: Cell)
    requires InGrid(w, s) && a.IsMove()
    requires t == Shift(s.Pos(), Vector(a)) && CellInGrid(w, t)
    requires !w.HasAt(Goal, t) && !w.HasAt(Wumpus, t)
    ensures Move(w, s, a, 0) == Step(State(t.x, t.y, s.hasGold, s.hasImmunity), -w.cost, false)
  {
    MoveStepOrStay(w, s, a, 0);
  }

  // ---------------------------------------------------------------------------
  // A 3 x 3 world with a goal worth 10 at (2, 2), a wumpus worth -10 at (1, 1) and a step cost of 1.

  function SmallWorld(): World {
    World(3, 3, 1, map[], map[], map[], map[Cell(2, 2) := 10], map[Cell(1, 1) := -10])
  }

  /** In the small world, a forced intended step onto an ordinary cell costs one and the episode goes on. */
  lemma PlainStepInSmallWorld(s: State, a: Action, t: Cell)
    requires a == Right || a == Down
    requires 0 <= s.x < 3 && 0 <= s.y < 3
    requires t == Shift(s.Pos(), if a == Right then Offset(1, 0) else Offset(0, 1))
    requires 0 <= t.x < 3 && 0 <= t.y < 3 && t != Cell(2, 2) && t != Cell(1, 1)
    ensures Move(SmallWorld(), s, a, 0) == Step(State(t.x, t.y, s.hasGold, s.hasImmunity), -1, false)
  {
    var w := SmallWorld();
    assert Vector(a) == if a == Right then Offset(1, 0) else Offset(0, 1);
    assert !w.HasAt(Goal, t) && !w.HasAt(Wumpus, t);
    assert InGrid(w, s) && CellInGrid(w, t);
    PlainIntendedStep(w, s, a, t);
  }

  /** Carrying gold into the goal ends the episode with the goal's payoff. */
  lemma GoldDeliveredToGoal()
    ensures Move(SmallWorld(), State(2, 1, true, false), Down, 0) == Step(State(2, 2, true, false), 10, true)
  {
    assert Vector(Down) == Offset(0, 1);
    assert Destination(SmallWorld(), State(2, 1, true, false), Down, 0) == State(2, 2, true, false);
  }

  /** Without immunity, entering the wumpus cell ends the episode with the wumpus's payoff. */
  lemma WumpusEndsEpisode()
    ensures Move(SmallWorld(), State(1, 0, false, false), Down, 0) == Step(State(1, 1, false, false), -10, true)
  {
    assert Vector(Down) == Offset(0, 1);
    assert Destination(SmallWorld(), State(1, 0, false, false), Down, 0) == State(1, 1, false, false);
  }

  /** With immunity, the same move costs one step and the episode goes on. */
  lemma ImmunityBypassesWumpus()
    ensures Move(SmallWorld(), State(1, 0, false, true), Down, 0) == Step(State(1, 1, false, true), -1, false)
  {
    assert Vector(Down) == Offset(0, 1);
    assert Destination(SmallWorld(), State(1, 0, false, true), Down, 0) == State(1, 1, false, true);
  }
}
