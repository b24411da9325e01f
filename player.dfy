/**
 * The player: its bark, which spooks every sheep in range and then cools
 * down, and the keyboard steering of its hop controller.
 *
 * Keyboard state is passed in as sets of keys: `held` for keys down this
 * frame and `justPressed` for keys that went down this frame.
 */
module Players {
  import opened Timers
  import opened Geometry
  import opened Movement
  import opened Flock

  /** The keys the player's systems read. */
  datatype KeyCode = KeyW | KeyA | KeyS | KeyD | ArrowUp | ArrowDown | ArrowLeft | ArrowRight | KeyE | Space

  /** How far the bark reaches. */
  const BARK_RADIUS: real := 8.0

  /** Seconds between barks. */
  const BARK_COOLDOWN_SECONDS: real := 2.0

  class Player {
    var barkRadius: real
    var barkCooldown: Timer

    /** `Player::default`: an eight-unit bark on a two-second cooldown that starts unfinished. */
    constructor Default()
      ensures barkRadius == BARK_RADIUS
      ensures barkCooldown == Timer(0.0, BARK_COOLDOWN_SECONDS)
    {
      barkRadius := BARK_RADIUS;
      barkCooldown := FromSeconds(BARK_COOLDOWN_SECONDS);
    }
  }

  /** `tick_player_timers`: every player's cooldown advances by the frame time. */
  method TickPlayerTimers(players: seq<Player>, dt: real)
    requires dt >= 0.0
    requires forall i, j :: 0 <= i < j < |players| ==> players[i] != players[j]
    modifies set i | 0 <= i < |players| :: players[i]
    ensures forall i :: 0 <= i < |players| ==>
      players[i].barkCooldown == old(players[i].barkCooldown).Tick(dt) && players[i].barkRadius == old(players[i].barkRadius)
  {
    var k := 0;
    while k < |players|
      invariant 0 <= k <= |players|
      invariant forall i :: 0 <= i < k ==>
        players[i].barkCooldown == old(players[i].barkCooldown).Tick(dt) && players[i].barkRadius == old(players[i].barkRadius)
      invariant forall i :: k <= i < |players| ==>
        players[i].barkCooldown == old(players[i].barkCooldown) && players[i].barkRadius == old(players[i].barkRadius)
    {
      var p := players[k];
      p.barkCooldown := p.barkCooldown.Tick(dt);
      k := k + 1;
    }
  }

  /** A bark is asked for when `E` or `Space` went down this frame. */
  predicate BarkPressed(justPressed: set<KeyCode>)
  {
    KeyE in justPressed || Space in justPressed
  }

  /** A sheep at `sheepPos` hears a bark from `playerPos` of radius `r`: within the closed disc. */
  predicate InBarkRange(playerPos: Vec2, sheepPos: Vec2, r: real)
  {
    DistSq(playerPos, sheepPos) <= r * r
  }

  /**
   * `handle_bark` for one player: when a bark key went down and the cooldown
   * is over, the cooldown restarts and every sheep within the bark radius
   * becomes spooked by the player; any other sheep, and any sheep at all when
   * there is no bark, keeps its state.
   */
  method HandleBark(justPressed: set<KeyCode>, player: Player, playerPos: Vec2, flock: seq<Sheep>, positions: seq<Vec2>)
    requires |positions| == |flock|
    requires forall i, j :: 0 <= i < j < |flock| ==> flock[i] != flock[j]
    modifies player, set i | 0 <= i < |flock| :: flock[i]
    ensures player.barkRadius == old(player.barkRadius)
    ensures !(BarkPressed(justPressed) && old(player.barkCooldown).Finished()) ==>
      player.barkCooldown == old(player.barkCooldown)
      && forall i :: 0 <= i < |flock| ==> flock[i].state == old(flock[i].state)
    ensures BarkPressed(justPressed) && old(player.barkCooldown).Finished() ==>
      player.barkCooldown == old(player.barkCooldown).Reset()
      && forall i :: 0 <= i < |flock| ==>
        flock[i].state == (if InBarkRange(playerPos, positions[i], player.barkRadius)
                           then SpookedBy(old(flock[i].state), playerPos) else old(flock[i].state))
  {
    if !BarkPressed(justPressed) || !player.barkCooldown.Finished() {
      return;
    }
    player.barkCooldown := player.barkCooldown.Reset();
    var r := player.barkRadius;
    var k := 0;
    while k < |flock|
      invariant 0 <= k <= |flock|
      invariant player.barkRadius == r && player.barkCooldown == old(player.barkCooldown).Reset()
      invariant forall i :: 0 <= i < k ==>
        flock[i].state == (if InBarkRange(playerPos, positions[i], r)
                           then SpookedBy(old(flock[i].state), playerPos) else old(flock[i].state))
      invariant forall i :: k <= i < |flock| ==> flock[i].state == old(flock[i].state)
    {
      if InBarkRange(playerPos, positions[k], r) {
        flock[k].BecomeSpooked(playerPos);
      }
      k := k + 1;
    }
  }

  /** After a bark the cooldown is unfinished, and it finishes once two seconds have been ticked. */
  lemma BarkCooldownTwoSeconds(t: Timer, a: real, b: real)
    requires t.Valid() && t.duration == BARK_COOLDOWN_SECONDS
    requires a >= 0.0 && b >= 0.0
    ensures !t.Reset().Finished()
    ensures t.Reset().Tick(a).Tick(b).Finished() <==> a + b >= BARK_COOLDOWN_SECONDS
  {
    TickTwice(t.Reset(), a, b);
  }

  /** One axis of the keyboard intent: `1` for the positive key alone, `-1` for the negative key alone, `0` otherwise. */
  function Axis(negative: bool, positive: bool): (a: real)
    ensures a == 1.0 <==> positive && !negative
    ensures a == -1.0 <==> negative && !positive
    ensures a == 0.0 <==> negative == positive
  {
    (if positive then 1.0 else 0.0) - (if negative then 1.0 else 0.0)
  }

  /** Up (`W` or the up arrow) is towards negative `y` on the ground. */
  predicate UpHeld(held: set<KeyCode>) { KeyW in held || ArrowUp in held }
  predicate DownHeld(held: set<KeyCode>) { KeyS in held || ArrowDown in held }
  predicate LeftHeld(held: set<KeyCode>) { KeyA in held || ArrowLeft in held }
  predicate RightHeld(held: set<KeyCode>) { KeyD in held || ArrowRight in held }

  /** The directional input as `record_player_directional_input` collects it, one key pair at a time. */
  method CollectIntent(held: set<KeyCode>) returns (intent: Vec2)
    ensures intent == Vec2(Axis(LeftHeld(held), RightHeld(held)), Axis(UpHeld(held), DownHeld(held)))
  {
    intent := ZERO;
    if KeyW in held || ArrowUp in held {
      intent := intent.(y := intent.y - 1.0);
    }
    if KeyS in held || ArrowDown in held {
      intent := intent.(y := intent.y + 1.0);
    }
    if KeyA in held || ArrowLeft in held {
      intent := intent.(x := intent.x - 1.0);
    }
    if KeyD in held || ArrowRight in held {
      intent := intent.(x := intent.x + 1.0);
    }
  }

  /** The player's movement direction: the collected input, normalised or zero. */
  function PlayerIntent(held: set<KeyCode>, len: Vec2 -> real): Vec2
  {
    NormalizeOr(len, Vec2(Axis(LeftHeld(held), RightHeld(held)), Axis(UpHeld(held), DownHeld(held))), ZERO)
  }

  /**
   * With a true length, the player stands still exactly when every pair of
   * opposite keys is balanced, and otherwise moves with unit speed whether
   * the input is straight or diagonal.
   */
  lemma PlayerIntentUnitOrZero(held: set<KeyCode>, len: Vec2 -> real)
    requires IsLength(len)
    ensures PlayerIntent(held, len) == ZERO <==> LeftHeld(held) == RightHeld(held) && UpHeld(held) == DownHeld(held)
    ensures PlayerIntent(held, len) != ZERO ==> NormSq(PlayerIntent(held, len)) == 1.0
  {
    var raw := Vec2(Axis(LeftHeld(held), RightHeld(held)), Axis(UpHeld(held), DownHeld(held)));
    NormalizeOrUnit(len, raw, ZERO);
    if raw != ZERO {
      assert NormSq(PlayerIntent(held, len)) == 1.0;
      assert NormSq(ZERO) == 0.0;
    }
  }

  /**
   * `record_player_directional_input`: every player controller receives the
   * intent scaled by its speed multiplier and the frame time, and
   * `apply_movement` scales it by the multiplier once more.
   */
  method RecordPlayerDirectionalInput(held: set<KeyCode>, controllers: seq<HopMovementController>, dt: real, len: Vec2 -> real)
    requires forall i, j :: 0 <= i < j < |controllers| ==> controllers[i] != controllers[j]
    modifies set i | 0 <= i < |controllers| :: controllers[i]
    ensures forall i :: 0 <= i < |controllers| ==>
      var m := old(controllers[i].moveSpeedMult);
      controllers[i].Model() == old(controllers[i].Model()).(
        intent := old(controllers[i].intent).Add(PlayerIntent(held, len).Scale(m).Scale(dt).Scale(m)))
  {
    var raw := CollectIntent(held);
    var intent := NormalizeOr(len, raw, ZERO);
    var k := 0;
    while k < |controllers|
      invariant 0 <= k <= |controllers|
      invariant forall i :: 0 <= i < k ==>
        var m := old(controllers[i].moveSpeedMult);
        controllers[i].Model() == old(controllers[i].Model()).(
          intent := old(controllers[i].intent).Add(PlayerIntent(held, len).Scale(m).Scale(dt).Scale(m)))
      invariant forall i :: k <= i < |controllers| ==> controllers[i].Model() == old(controllers[i].Model())
    {
      var c := controllers[k];
      var speedMult := c.moveSpeedMult;
      c.ApplyMovement(intent.Scale(speedMult).Scale(dt));
      k := k + 1;
    }
  }
}
