/**
 * The Wumpus grid world: a finite Markov decision process over a bounded grid.
 *
 * A state is a position plus two flags (carrying gold, immune to the wumpus).
 * A movement action is perturbed into one of three realised directions; the
 * random draw that picks among them is an explicit `Draw` parameter, so every
 * transition here is a total, deterministic function of (world, state, action, draw).
 */
module WumpusWorld {

  /** The five members of the `Actions` enumeration. */
  datatype Action = Up | Down | Left | Right | PickUp {
    /** The four actions that `move` handles. */
    predicate IsMove() { this != PickUp }
  }

  /** What a caller may hand to `act`: a member of `Actions`, or any other value, known by its text. */
  datatype Symbol = Known(action: Action) | Unknown(text: string)

  /**
   * What `act` reports for a value outside the enumeration; the source raises a
   * bare `Exception("Invalid action specified: ...")`, and the name
   * `InvalidAction` is this model's own. It carries the offending value's text.
   */
  datatype Error = InvalidAction(shown: string)

  datatype Result<T> = Ok(value: T) | Err(error: Error)

  /** A grid coordinate, the key of every object registry. */
  datatype Cell = Cell(x: int, y: int)

  /** A unit step on the grid. */
  datatype Offset = Offset(dx: int, dy: int)

  /**
   * A state: both the plain tuple `states` yields and the `WumpusState` object
   * that `act` and `move` take and build, merged into one value type.
   */
  datatype State = State(x: int, y: int, hasGold: bool, hasImmunity: bool) {
    function Pos(): Cell { Cell(x, y) }
  }

  /** The five registries of `_objs`. */
  datatype Kind = Pit | Gold | Immune | Goal | Wumpus

  /**
   * A `WumpusMDP`: the grid's size, the step cost and the five registries,
   * each a finite map from cell to reward. The pit registry is kept but no
   * transition consults it.
   */
  datatype World = World(
    width: nat, height: nat, cost: int,
    pit: map<Cell, int>, gold: map<Cell, int>, immune: map<Cell, int>,
    goal: map<Cell, int>, wumpus: map<Cell, int>)
  {
    function Registry(k: Kind): map<Cell, int> {
      match k
      case Pit => pit
      case Gold => gold
      case Immune => immune
      case Goal => goal
      case Wumpus => wumpus
    }

    /** `has_at`: the cell is registered under this kind. */
    predicate HasAt(k: Kind, p: Cell) { p in Registry(k) }

    /** `reward_at`: the payoff stored for a registered cell (a missing key is a lookup error in the source). */
    function RewardAt(k: Kind, p: Cell): int
      requires HasAt(k, p)
    {
      Registry(k)[p]
    }

    /**
     * Storing payoff `v` for cell `p` in registry `k`, as the `add_pit`,
     * `add_gold`, `add_immunity`, `add_goal` and `add_wumpus` helpers of the
     * earlier version do: afterwards `has_at` finds the cell and `reward_at`
     * answers `v`, and every other (kind, cell) query answers as before.
     */
    function Register(k: Kind, p: Cell, v: int): (r: World)
      ensures r.width == width && r.height == height && r.cost == cost
      ensures r.HasAt(k, p) && r.RewardAt(k, p) == v
      ensures forall j: Kind, q: Cell :: (j != k || q != p) ==>
        (r.HasAt(j, q) <==> HasAt(j, q)) && (HasAt(j, q) ==> r.RewardAt(j, q) == RewardAt(j, q))
    {
      match k
      case Pit => this.(pit := pit[p := v])
      case Gold => this.(gold := gold[p := v])
      case Immune => this.(immune := immune[p := v])
      case Goal => this.(goal := goal[p := v])
      case Wumpus => this.(wumpus := wumpus[p := v])
    }
  }

  /** The result of a transition: the new state, its reward, and whether the episode ends. */
  datatype Step = Step(next: State, reward: int, terminal: bool)

  /** The random draw of `move`: an index into the list of three realised directions. */
  type Draw = i: nat | i < 3

  /** The constructor `WumpusMDP(w, h, cost)`: a grid of the given size whose registries are all empty. */
  function NewWorld(w: nat, h: nat, cost: int): (r: World)
    ensures r.width == w && r.height == h && r.cost == cost
    ensures forall k: Kind, p: Cell :: !r.HasAt(k, p)
  {
    World(w, h, cost, map[], map[], map[], map[], map[])
  }

  predicate CellInGrid(w: World, p: Cell) {
    0 <= p.x < w.width && 0 <= p.y < w.height
  }

  /** The position lies on the grid that `states` enumerates. */
  predicate InGrid(w: World, s: State) {
    CellInGrid(w, s.Pos())
  }

  // ---------------------------------------------------------------------------
  // The state space

  /** The four flag combinations at one cell, in the order `(True, False) x (True, False)`. */
  function FlagsAt(x: int, y: int): seq<State> {
    [State(x, y, true, true), State(x, y, true, false),
     State(x, y, false, true), State(x, y, false, false)]
  }

  /** Every state with the given x and a y in [0, n), y ascending. */
  function Column(x: int, n: nat): seq<State> {
    if n == 0 then [] else Column(x, n - 1) + FlagsAt(x, n - 1)
  }

  /** Every state with x in [0, n) and y in [0, h), x outermost. */
  function Grid(n: nat, h: nat): seq<State> {
    if n == 0 then [] else Grid(n - 1, h) + Column(n - 1, h)
  }

  /** `states`: the product of x-range, y-range and the two flags, in `itertools.product` order. */
  function States(w: World): seq<State> {
    Grid(w.width, w.height)
  }

  /** `actions`: every member of the enumeration. */
  function AllActions(): (r: seq<Action>)
    ensures |r| == 5
    ensures forall a: Action :: a in r
  {
    var r := [Up, Down, Left, Right, PickUp];
    assert r[0] == Up && r[1] == Down && r[2] == Left && r[3] == Right && r[4] == PickUp;
    assert forall a: Action :: (a.Up? || a.Down? || a.Left? || a.Right? || a.PickUp?) ==> a in r;
    r
  }

  // ---------------------------------------------------------------------------
  // Directions

  /** The unit vectors `_UP`, `_DOWN`, `_LEFT`, `_RIGHT`; y grows downwards. */
  function Vector(a: Action): (v: Offset)
    requires a.IsMove()
    ensures (v.dx == 0) != (v.dy == 0)
    ensures -1 <= v.dx <= 1 && -1 <= v.dy <= 1
  {
    match a
    case Up => Offset(0, -1)
    case Down => Offset(0, 1)
    case Left => Offset(-1, 0)
    case Right => Offset(1, 0)
  }

  /** The direction's vector lies on the x axis. */
  predicate Horizontal(a: Action)
    requires a.IsMove()
  {
    Vector(a).dy == 0
  }

  /** Two movement actions whose vectors are at right angles: axis-aligned unit vectors are exactly when they lie on different axes. */
  predicate Perpendicular(a: Action, b: Action)
    requires a.IsMove() && b.IsMove()
  {
    Horizontal(a) != Horizontal(b)
  }

  /** The movement action whose vector is the negation of `a`'s. */
  function Opposite(a: Action): (b: Action)
    requires a.IsMove()
    ensures b.IsMove()
    ensures Vector(b) == Offset(-Vector(a).dx, -Vector(a).dy)
  {
    match a
    case Up => Down
    case Down => Up
    case Left => Right
    case Right => Left
  }

  /**
   * The list `alst` that `move` draws from: the intended direction first,
   * then its two perpendiculars, in the source's order.
   */
  function Alternatives(a: Action): (r: seq<Action>)
    requires a.IsMove()
    ensures |r| == 3 && r[0] == a
    ensures r[1].IsMove() && r[2].IsMove()
  {
    match a
    case Up => [Up, Left, Right]
    case Down => [Down, Right, Left]
    case Left => [Left, Up, Down]
    case Right => [Right, Down, Up]
  }

  /** The direction the draw selects. */
  function Realised(a: Action, d: Draw): (b: Action)
    requires a.IsMove()
    ensures b.IsMove() && b in Alternatives(a)
    ensures d == 0 ==> b == a
  {
    Alternatives(a)[d]
  }

  function Shift(p: Cell, v: Offset): Cell {
    Cell(p.x + v.dx, p.y + v.dy)
  }

  // ---------------------------------------------------------------------------
  // Clamping

  /** One axis of `_clip`, with the bounds the enumeration uses: the nearest value in [0, hi]. */
  function Clip(v: int, hi: int): (r: int)
    ensures 0 <= r
    ensures hi >= 0 ==> r <= hi
    ensures 0 <= v <= hi ==> r == v
    ensures v < 0 ==> r == 0
    ensures hi >= 0 && v > hi ==> r == hi
  {
    var m := if v < hi then v else hi;
    if m > 0 then m else 0
  }

  /** `_clip` on both axes: each coordinate independently into [0, width-1] x [0, height-1]. */
  function ClipCell(w: World, p: Cell): (r: Cell)
    ensures w.width > 0 && w.height > 0 ==> CellInGrid(w, r)
    ensures CellInGrid(w, p) ==> r == p
  {
    Cell(Clip(p.x, w.width - 1), Clip(p.y, w.height - 1))
  }

  // ---------------------------------------------------------------------------
  // Items and legal actions

  /** `gold_at`: the cell holds gold and the agent does not yet carry any. */
  predicate GoldAt(w: World, s: State) {
    !s.hasGold && w.HasAt(Gold, s.Pos())
  }

  /** `immunity_at`: the cell holds an immunity token and the agent is not yet immune. */
  predicate ImmunityAt(w: World, s: State) {
    !s.hasImmunity && w.HasAt(Immune, s.Pos())
  }

  /** `actions_at`: the four moves, then `PICK_UP` when there is an uncollected item here. */
  function ActionsAt(w: World, s: State): (r: seq<Action>)
    ensures |r| >= 4 && r[..4] == [Left, Right, Up, Down]
    ensures |r| == (if GoldAt(w, s) || ImmunityAt(w, s) then 5 else 4)
    ensures PickUp in r <==> GoldAt(w, s) || ImmunityAt(w, s)
    ensures forall a: Action :: a.IsMove() ==> a in r
  {
    var moves := [Left, Right, Up, Down];
    if GoldAt(w, s) || ImmunityAt(w, s) then moves + [PickUp] else moves
  }

  // ---------------------------------------------------------------------------
  // Transitions

  /**
   * Where `move` puts the agent: the realised direction is added to the
   * position and the result clamped to the grid; the flags are carried over.
   */
  function Destination(w: World, s: State, a: Action, d: Draw): (r: State)
    requires a.IsMove()
    ensures r.hasGold == s.hasGold && r.hasImmunity == s.hasImmunity
    ensures w.width > 0 && w.height > 0 ==> InGrid(w, r)
  {
    var p := ClipCell(w, Shift(s.Pos(), Vector(Realised(a, d))));
    State(p.x, p.y, s.hasGold, s.hasImmunity)
  }

  /**
   * Reward and termination of arriving in `t`, in priority order: carrying
   * gold onto a goal ends the episode with the goal's payoff; otherwise,
   * lacking immunity on a wumpus cell ends it with the wumpus's payoff;
   * otherwise the step costs `cost` and the episode goes on.
   */
  function Arrive(w: World, t: State): (r: Step)
    ensures r.next == t
    ensures r.terminal <==> (t.hasGold && w.HasAt(Goal, t.Pos())) || (!t.hasImmunity && w.HasAt(Wumpus, t.Pos()))
    ensures t.hasGold && w.HasAt(Goal, t.Pos()) ==> r.reward == w.RewardAt(Goal, t.Pos())
    ensures r.terminal && !(t.hasGold && w.HasAt(Goal, t.Pos())) ==> r.reward == w.RewardAt(Wumpus, t.Pos())
    ensures !r.terminal ==> r.reward == -w.cost
  {
    var p := t.Pos();
    if t.hasGold && w.HasAt(Goal, p) then
      Step(t, w.RewardAt(Goal, p), true)
    else if !t.hasImmunity && w.HasAt(Wumpus, p) then
      Step(t, w.RewardAt(Wumpus, p), true)
    else
      Step(t, -w.cost, false)
  }

  /**
   * `move`: the agent goes to its destination, and the reward and
   * termination are judged on the new cell with the flags it carried there.
   */
  function Move(w: World, s: State, a: Action, d: Draw): (r: Step)
    requires a.IsMove()
    ensures r.next.hasGold == s.hasGold && r.next.hasImmunity == s.hasImmunity
    ensures w.width > 0 && w.height > 0 ==> InGrid(w, r.next)
    ensures r.terminal <==>
      (s.hasGold && w.HasAt(Goal, r.next.Pos())) || (!s.hasImmunity && w.HasAt(Wumpus, r.next.Pos()))
    ensures s.hasGold && w.HasAt(Goal, r.next.Pos()) ==> r.reward == w.RewardAt(Goal, r.next.Pos())
    ensures r.terminal && !(s.hasGold && w.HasAt(Goal, r.next.Pos())) ==>
      r.reward == w.RewardAt(Wumpus, r.next.Pos())
    ensures !r.terminal ==> r.reward == -w.cost
  {
    Arrive(w, Destination(w, s, a, d))
  }

  /**
   * `pick_up`: takes the gold if there is uncollected gold here, otherwise the
   * immunity token if there is one; the position never changes.
   */
  function PickUpItem(w: World, s: State): (r: State)
    ensures r.Pos() == s.Pos()
    ensures r.hasGold == (s.hasGold || GoldAt(w, s))
    ensures r.hasImmunity == (s.hasImmunity || (!GoldAt(w, s) && ImmunityAt(w, s)))
  {
    if GoldAt(w, s) then s.(hasGold := true)
    else if ImmunityAt(w, s) then s.(hasImmunity := true)
    else s
  }

  /**
   * `act`: `PICK_UP` goes to `pick_up` (no reward, never terminal), the four
   * directions go to `move`, anything else is rejected (the model's `InvalidAction`).
   */
  function Act(w: World, s: State, sym: Symbol, d: Draw): (r: Result<Step>)
    ensures r.Err? <==> sym.Unknown?
    ensures sym.Unknown? ==> r == Err(InvalidAction(sym.text))
    ensures sym == Known(PickUp) ==> r == Ok(Step(PickUpItem(w, s), 0, false))
    ensures sym.Known? && sym.action.IsMove() ==> r == Ok(Move(w, s, sym.action, d))
  {
    match sym
    case Unknown(text) => Err(InvalidAction(text))
    case Known(a) =>
      if a == PickUp then Ok(Step(PickUpItem(w, s), 0, false))
      else Ok(Move(w, s, a, d))
  }

  /**
   * An episode driver: feeds each (symbol, draw) to `act`; a rejected symbol
   * leaves the state as it was, and a terminal step ends the episode.
   */
  function Run(w: World, s: State, steps: seq<(Symbol, Draw)>): State
    decreases |steps|
  {
    if steps == [] then s
    else
      match Act(w, s, steps[0].0, steps[0].1)
      case Err(_) => Run(w, s, steps[1..])
      case Ok(o) => if o.terminal then o.next else Run(w, o.next, steps[1..])
  }
}
