/**
 * The earlier, smaller game state of `src/game/state.rs`: a sheep count, a
 * countdown, points and a point target, with a round that only rewinds the
 * countdown and clears the points, and the same starting grid for the flock.
 */
module LegacyState {
  import opened Wrappers
  import opened Timers
  import opened Geometry
  import opened GameStates
  import opened Herding

  /** The phases of the earlier game. */
  datatype LegacyPhase = LegacyHerding | Interlude

  const DEFAULT_SHEEP_COUNT: nat := 10
  const DEFAULT_POINT_TARGET: nat := 10

  class LegacyGameState {
    var sheepCount: nat
    var countdown: Timer
    var points: nat
    var pointTarget: nat

    /** `GameState::default`: ten sheep, a two-minute countdown, no points, a target of ten. */
    constructor Default()
      ensures sheepCount == DEFAULT_SHEEP_COUNT && countdown == Timer(0.0, ROUND_SECONDS)
      ensures points == 0 && pointTarget == DEFAULT_POINT_TARGET
    {
      sheepCount := DEFAULT_SHEEP_COUNT;
      countdown := FromSeconds(ROUND_SECONDS);
      points := 0;
      pointTarget := DEFAULT_POINT_TARGET;
    }

    /** `new_round`: the countdown rewinds and the points clear; the sheep count and target stay. */
    method NewRound()
      modifies this
      ensures countdown == old(countdown).Reset() && points == 0
      ensures sheepCount == old(sheepCount) && pointTarget == old(pointTarget)
    {
      countdown := countdown.Reset();
      points := 0;
    }

    /** `tick_countdown`: the countdown advances, and the game returns to the title screen on the tick that finishes it. */
    method TickCountdown(dt: real) returns (next: Option<Screen>)
      requires dt >= 0.0
      modifies this
      ensures countdown == old(countdown).Tick(dt)
      ensures next == (if old(countdown).JustFinished(dt) then Some(Title) else None)
      ensures sheepCount == old(sheepCount) && points == old(points) && pointTarget == old(pointTarget)
    {
      var before := countdown;
      countdown := countdown.Tick(dt);
      next := None;
      if !before.Finished() && countdown.Finished() {
        next := Some(Title);
      }
    }
  }

  /** A new round on a valid countdown starts a fresh, unfinished two-minute wait whatever came before. */
  lemma NewRoundRestartsCountdown(t: Timer)
    requires t.duration == ROUND_SECONDS
    ensures t.Reset() == Timer(0.0, ROUND_SECONDS)
    ensures !t.Reset().Finished() && t.Reset().Tick(ROUND_SECONDS).Finished()
    ensures t.Reset().JustFinished(ROUND_SECONDS)
  {
  }

  /**
   * `on_herding`: a new round first, then, unless the count is zero, one
   * sheep at each grid place in order. The sheep bundles themselves are
   * built by a spawner this model does not cover, so only their places are
   * returned.
   */
  method OnHerding(game: LegacyGameState) returns (positions: seq<Vec3>)
    modifies game
    ensures game.countdown == old(game.countdown).Reset() && game.points == 0
    ensures game.sheepCount == old(game.sheepCount) && game.pointTarget == old(game.pointTarget)
    ensures |positions| == game.sheepCount
    ensures forall i :: 0 <= i < |positions| ==> positions[i] == SpawnPosition(i, GridSize(game.sheepCount))
    ensures forall i, j :: 0 <= i < j < |positions| ==> positions[i] != positions[j]
  {
    game.NewRound();
    positions := [];
    var count := game.sheepCount;
    if count == 0 {
      return;
    }
    var grid := GridSize(count);
    GridSizeBounds(count);
    for i := 0 to count
      invariant |positions| == i
      invariant forall k :: 0 <= k < i ==> positions[k] == SpawnPosition(k, grid)
    {
      var x := (i % grid) as real;
      var z := (i / grid) as real;
      var offset := (grid as real - 1.0) * 0.5;
      positions := positions + [Vec3((x - offset) * GRID_SPACING, 0.0, (z - offset) * GRID_SPACING)];
    }
    forall i, j | 0 <= i < j < |positions|
      ensures positions[i] != positions[j]
    {
      SpawnPositionsDistinct(i, j, grid);
    }
  }
}
