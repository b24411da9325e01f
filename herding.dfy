/**
 * The herding phase: the round countdown, the square grid the flock starts
 * on, the player's controller, the points goal that ends the phase, and the
 * remaining time on display.
 */
module Herding {
  import opened Wrappers
  import opened Timers
  import opened Geometry
  import opened Modifiers
  import opened GameStates
  import opened Flock
  import opened Players
  import opened Movement

  /** Distance between neighbouring sheep of the starting grid. */
  const GRID_SPACING: real := 10.0

  /** The movement controller the player is given on entering the phase, with its constructor arguments. */
  datatype PlayerController = SpaceController(speed: real) | HopController(args: seq<real>)

  /** `tick_countdown`: the countdown advances, and the game returns to the title screen on the tick that finishes it. */
  method TickCountdown(game: GameState, dt: real) returns (next: Option<Screen>)
    requires dt >= 0.0
    modifies game
    ensures game.Fields() == old(game.Fields()).(countdown := old(game.countdown).Tick(dt))
    ensures next == (if old(game.countdown).JustFinished(dt) then Some(Title) else None)
  {
    var before := game.countdown;
    game.countdown := game.countdown.Tick(dt);
    next := None;
    if !before.Finished() && game.countdown.Finished() {
      next := Some(Title);
    }
  }

  /** `check_points_goal`: the phase moves to the modifier choice exactly when the points reach the target. */
  method CheckPointsGoal(game: GameState) returns (next: Option<GamePhase>)
    ensures next.Some? <==> game.points >= game.pointTarget
    ensures next.Some? ==> next.value == ModifierChoice
  {
    next := None;
    if game.points >= game.pointTarget {
      next := Some(ModifierChoice);
    }
  }

  /** The smallest `g` at least `from` with `g * g >= n`. */
  function CeilSqrtFrom(n: nat, from: nat): (g: nat)
    requires from == 0 || (from - 1) * (from - 1) < n
    ensures g * g >= n
    ensures g == 0 || (g - 1) * (g - 1) < n
    decreases n - from
  {
    if from * from >= n then from
    else
      assert from <= from * from || from == 0;
      CeilSqrtFrom(n, from + 1)
  }

  /** `(count as f32).sqrt().ceil()`: the side of the smallest square grid holding `count` sheep. */
  function GridSize(count: nat): (g: nat)
    ensures g * g >= count
    ensures g == 0 || (g - 1) * (g - 1) < count
  {
    CeilSqrtFrom(count, 0)
  }

  /** Only an empty flock has an empty grid, and the grid is never wider than the flock is large. */
  lemma GridSizeBounds(count: nat)
    ensures GridSize(count) == 0 <==> count == 0
    ensures GridSize(count) <= count
  {
    var g := GridSize(count);
    if g >= 1 {
      var h: nat := g - 1;
      MulMonotoneNat(h, 1, h);
      assert h <= h * h < count || h == 0;
    }
  }

  /** Sheep `i` goes to column `i % g` and row `i / g`. */
  function Cell(i: nat, g: nat): (nat, nat)
    requires g > 0
  {
    (i % g, i / g)
  }

  /** Every sheep's cell lies inside the `g` by `g` grid. */
  lemma CellInGrid(i: nat, count: nat)
    requires i < count
    ensures GridSize(count) > 0
    ensures Cell(i, GridSize(count)).0 < GridSize(count) && Cell(i, GridSize(count)).1 < GridSize(count)
  {
    var g := GridSize(count);
    GridSizeBounds(count);
    RowInRange(i, g);
  }

  lemma RowInRange(i: nat, g: nat)
    requires g > 0 && i < g * g
    ensures i / g < g
  {
    var q := i / g;
    assert i == g * q + i % g;
    MulMonotoneNat(g, g, q);
  }

  lemma MulMonotoneNat(c: nat, a: nat, b: nat)
    ensures a <= b ==> c * a <= c * b
  {
    if a <= b {
      var d := b - a;
      assert c * b == c * a + c * d;
    }
  }

  /** Different sheep get different cells. */
  lemma CellsDistinct(i: nat, j: nat, g: nat)
    requires g > 0 && i != j
    ensures Cell(i, g) != Cell(j, g)
  {
    assert i == g * (i / g) + i % g;
    assert j == g * (j / g) + j % g;
  }

  /** The grid is centred: column and row `k` sit at `(k - (g - 1) / 2) * 10`. */
  function GridCoordinate(k: nat, g: nat): real
  {
    (k as real - (g as real - 1.0) * 0.5) * GRID_SPACING
  }

  /** Where sheep `i` of a flock of grid size `g` is spawned. */
  function SpawnPosition(i: nat, g: nat): Vec3
    requires g > 0
  {
    Vec3(GridCoordinate(Cell(i, g).0, g), 0.0, GridCoordinate(Cell(i, g).1, g))
  }

  /** Different sheep are spawned at different places. */
  lemma SpawnPositionsDistinct(i: nat, j: nat, g: nat)
    requires g > 0 && i != j
    ensures SpawnPosition(i, g) != SpawnPosition(j, g)
  {
    CellsDistinct(i, j, g);
  }

  /** The grid is symmetric about the origin: cell `k` and cell `g - 1 - k` are mirror images. */
  lemma GridCentred(k: nat, g: nat)
    requires k < g
    ensures GridCoordinate(k, g) + GridCoordinate(g - 1 - k, g) == 0.0
  {
  }

  /**
   * `on_herding`: with no sheep nothing is spawned; otherwise sheep `i` is
   * spawned at its grid place with wait `waits[i]`, tuned and given a hop
   * controller by the active modifiers, then the player, with the space
   * controller under the `Space` modifier and a hop controller otherwise.
   */
  method OnHerding(game: GameState, waits: seq<real>)
    returns (flock: seq<Sheep>, controllers: seq<HopMovementController>, positions: seq<Vec3>,
             player: Option<Player>, controller: Option<PlayerController>)
    requires |waits| == game.sheepCount
    requires forall i :: 0 <= i < |waits| ==> MIN_WAIT <= waits[i] < MAX_WAIT
    ensures game.sheepCount == 0 ==> flock == [] && controllers == [] && positions == [] && player == None && controller == None
    ensures |flock| == |controllers| == |positions| == game.sheepCount
    ensures forall i :: 0 <= i < |positions| ==> positions[i] == SpawnPosition(i, GridSize(game.sheepCount))
    ensures forall i, j :: 0 <= i < j < |positions| ==> positions[i] != positions[j]
    ensures forall i :: 0 <= i < |flock| ==> fresh(flock[i]) && flock[i].state == Wander(Timer(0.0, waits[i]))
    ensures forall i :: 0 <= i < |flock| ==>
      var p := SpawnTuning(game.IsModifierActive(MoonGravity), game.IsModifierActive(HyperSheep));
      flock[i].Tuning() == SheepTuning(p.moveSpeedMult * 2.0, p.moveSpeedMult, p.moveSpeedMult * 2.0)
      && fresh(controllers[i]) && controllers[i].Model() == SpawnedHop(p)
    ensures game.sheepCount > 0 ==> player.Some? && fresh(player.value) && player.value.barkRadius == BARK_RADIUS
    ensures game.sheepCount > 0 ==>
      controller == Some(if game.IsModifierActive(Modifier.Space) then SpaceController(20.0) else HopController([1.0, 0.1, 0.2]))
  {
    flock, controllers, positions, player, controller := [], [], [], None, None;
    var count := game.sheepCount;
    if count == 0 {
      return;
    }
    ghost var p := SpawnTuning(game.IsModifierActive(MoonGravity), game.IsModifierActive(HyperSheep));
    var grid := GridSize(count);
    GridSizeBounds(count);
    for i := 0 to count
      invariant |flock| == |controllers| == |positions| == i
      invariant forall k :: 0 <= k < i ==> positions[k] == SpawnPosition(k, grid)
      invariant forall k :: 0 <= k < i ==> fresh(flock[k]) && flock[k].state == Wander(Timer(0.0, waits[k]))
      invariant forall k :: 0 <= k < i ==>
        flock[k].Tuning() == SheepTuning(p.moveSpeedMult * 2.0, p.moveSpeedMult, p.moveSpeedMult * 2.0)
        && fresh(controllers[k]) && controllers[k].Model() == SpawnedHop(p)
    {
      var x := (i % grid) as real;
      var z := (i / grid) as real;
      var offset := (grid as real - 1.0) * 0.5;
      var pos := Vec3((x - offset) * GRID_SPACING, 0.0, (z - offset) * GRID_SPACING);
      var sheep, c, _ := SpawnSheep(game, waits[i]);
      flock := flock + [sheep];
      controllers := controllers + [c];
      positions := positions + [pos];
    }
    forall i, j | 0 <= i < j < |positions|
      ensures positions[i] != positions[j]
    {
      SpawnPositionsDistinct(i, j, grid);
    }
    var pl := new Player.Default();
    player := Some(pl);
    if game.IsModifierActive(Modifier.Space) {
      controller := Some(SpaceController(20.0));
    } else {
      controller := Some(HopController([1.0, 0.1, 0.2]));
    }
  }

  /** `Duration::saturating_sub`: what is left of the countdown, never negative. */
  function Remaining(t: Timer): (r: real)
    ensures r >= 0.0
    ensures r == 0.0 <==> t.Finished()
    ensures t.Valid() ==> r <= t.duration
    ensures !t.Finished() ==> r + t.elapsed == t.duration
  {
    if t.elapsed >= t.duration then 0.0 else t.duration - t.elapsed
  }

  /** The whole seconds shown by the herding timer label: the remaining time rounded up. */
  function DisplayedSeconds(t: Timer): (s: nat)
    ensures Remaining(t) <= s as real < Remaining(t) + 1.0
  {
    var r := Remaining(t);
    var f := (-r).Floor;
    assert f as real <= -r < f as real + 1.0;
    -f
  }

  /** The label reads 0 exactly when the countdown has finished, and 120 at the start of a round. */
  lemma DisplayedSecondsEnds(t: Timer)
    ensures DisplayedSeconds(t) == 0 <==> t.Finished()
    ensures t == Timer(0.0, ROUND_SECONDS) ==> DisplayedSeconds(t) == 120
  {
    var s := DisplayedSeconds(t);
    if s == 0 {
      assert Remaining(t) <= 0.0;
    }
  }
}
