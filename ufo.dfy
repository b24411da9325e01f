/**
 * The UFOs of the `Ufo` modifier: each hovers at a fixed height, waits out a
 * pause after every abduction, picks a sheep, flies towards it without
 * overshooting, and abducts it once close enough and its abduction timer has
 * run out.
 *
 * A target is a reference to one of the sheep of `flock`; a target no longer
 * in `flock` has been despawned. `positions[i]` is the ground position of
 * `flock[i]`. The ground distance `length` is the caller-supplied `len`.
 */
module Ufos {
  import opened Wrappers
  import opened Timers
  import opened Geometry
  import opened Modifiers
  import opened GameStates
  import opened Flock
  import opened UfoParams

  /** `f32::EPSILON`, the smallest distance the UFO still moves over. */
  const EPSILON: real := 0.00000011920928955078125

  /** Where a spawned UFO appears. */
  const UFO_SPAWN: Vec3 := Vec3(0.0, UFO_HEIGHT, -20.0)

  /** A UFO's fields as one value. */
  datatype UfoView = UfoView(abductionTimer: Timer, pauseTimer: Timer, target: Option<Sheep>, translation: Vec3)

  class Ufo {
    var abductionTimer: Timer
    var postAbductionPauseTimer: Timer
    var target: Option<Sheep>
    /** The translation of the UFO entity's transform. */
    var translation: Vec3

    function View(): UfoView
      reads this
    {
      UfoView(abductionTimer, postAbductionPauseTimer, target, translation)
    }

    /** `Ufo::new`, placed at `at`: the pause already over, a full abduction timer, and no target. */
    constructor New(at: Vec3)
      ensures postAbductionPauseTimer == Timer(UFO_POST_ABDUCTION_PAUSE_SECONDS, UFO_POST_ABDUCTION_PAUSE_SECONDS)
      ensures abductionTimer == Timer(0.0, UFO_ABDUCTION_SECONDS)
      ensures target == None && translation == at
    {
      var pause := FromSeconds(UFO_POST_ABDUCTION_PAUSE_SECONDS);
      pause := pause.(elapsed := pause.duration);
      postAbductionPauseTimer := pause;
      abductionTimer := FromSeconds(UFO_ABDUCTION_SECONDS);
      target := None;
      translation := at;
    }
  }

  /** A new UFO may pick a target at once, but cannot abduct before its abduction timer has run for eight seconds. */
  lemma NewUfoReady()
    ensures Timer(UFO_POST_ABDUCTION_PAUSE_SECONDS, UFO_POST_ABDUCTION_PAUSE_SECONDS).Finished()
    ensures !Timer(0.0, UFO_ABDUCTION_SECONDS).Finished()
    ensures Timer(0.0, UFO_ABDUCTION_SECONDS).Tick(UFO_ABDUCTION_SECONDS).Finished()
  {
  }

  /** How many UFOs `spawn_ufo` creates: one with the `Ufo` modifier, two if `FeverDream` is active too. */
  function UfoCount(ufoActive: bool, feverDreamActive: bool): (n: nat)
    ensures n <= 2
    ensures n == 0 <==> !ufoActive
    ensures n == 2 <==> ufoActive && feverDreamActive
  {
    if ufoActive then (if feverDreamActive then 2 else 1) else 0
  }

  /** `spawn_ufo`: as many new UFOs as `UfoCount` says, each at the spawn point and ready as `NewUfoReady` states. */
  method SpawnUfo(game: GameState) returns (ufos: seq<Ufo>)
    ensures |ufos| == UfoCount(game.IsModifierActive(Modifier.Ufo), game.IsModifierActive(FeverDream))
    ensures forall i :: 0 <= i < |ufos| ==> fresh(ufos[i])
    ensures forall i :: 0 <= i < |ufos| ==>
      ufos[i].View() == UfoView(Timer(0.0, UFO_ABDUCTION_SECONDS),
                                Timer(UFO_POST_ABDUCTION_PAUSE_SECONDS, UFO_POST_ABDUCTION_PAUSE_SECONDS), None, UFO_SPAWN)
    ensures forall i, j :: 0 <= i < j < |ufos| ==> ufos[i] != ufos[j]
  {
    ufos := [];
    if game.IsModifierActive(Modifier.Ufo) {
      var first := new Ufo.New(UFO_SPAWN);
      ufos := ufos + [first];
      if game.IsModifierActive(FeverDream) {
        var second := new Ufo.New(UFO_SPAWN);
        ufos := ufos + [second];
      }
    }
  }

  /** `tick_abduction_timers`: both timers of every UFO advance by the frame time. */
  method TickAbductionTimers(ufos: seq<Ufo>, dt: real)
    requires dt >= 0.0
    requires forall i, j :: 0 <= i < j < |ufos| ==> ufos[i] != ufos[j]
    modifies set i | 0 <= i < |ufos| :: ufos[i]
    ensures forall i :: 0 <= i < |ufos| ==>
      ufos[i].abductionTimer == old(ufos[i].abductionTimer).Tick(dt)
      && ufos[i].postAbductionPauseTimer == old(ufos[i].postAbductionPauseTimer).Tick(dt)
      && ufos[i].target == old(ufos[i].target) && ufos[i].translation == old(ufos[i].translation)
  {
    var k := 0;
    while k < |ufos|
      invariant 0 <= k <= |ufos|
      invariant forall i :: 0 <= i < k ==>
        ufos[i].abductionTimer == old(ufos[i].abductionTimer).Tick(dt)
        && ufos[i].postAbductionPauseTimer == old(ufos[i].postAbductionPauseTimer).Tick(dt)
        && ufos[i].target == old(ufos[i].target) && ufos[i].translation == old(ufos[i].translation)
      invariant forall i :: k <= i < |ufos| ==>
        ufos[i].abductionTimer == old(ufos[i].abductionTimer)
        && ufos[i].postAbductionPauseTimer == old(ufos[i].postAbductionPauseTimer)
        && ufos[i].target == old(ufos[i].target) && ufos[i].translation == old(ufos[i].translation)
    {
      var ufo := ufos[k];
      ufo.abductionTimer := ufo.abductionTimer.Tick(dt);
      ufo.postAbductionPauseTimer := ufo.postAbductionPauseTimer.Tick(dt);
      k := k + 1;
    }
  }

  /**
   * `pick_targets`: a pausing UFO drops its target, a UFO with a target
   * keeps it, and any other picks one of the sheep (none if there are none).
   * `picks[i]` is UFO `i`'s random draw, taken modulo the flock size.
   */
  method PickTargets(ufos: seq<Ufo>, flock: seq<Sheep>, picks: seq<nat>)
    requires |picks| == |ufos|
    requires forall i, j :: 0 <= i < j < |ufos| ==> ufos[i] != ufos[j]
    modifies set i | 0 <= i < |ufos| :: ufos[i]
    ensures forall i :: 0 <= i < |ufos| && !old(ufos[i].postAbductionPauseTimer).Finished() ==> ufos[i].target == None
    ensures forall i :: 0 <= i < |ufos| && old(ufos[i].postAbductionPauseTimer).Finished() && old(ufos[i].target).Some? ==>
      ufos[i].target == old(ufos[i].target)
    ensures forall i :: 0 <= i < |ufos| && old(ufos[i].postAbductionPauseTimer).Finished() && old(ufos[i].target).None? ==>
      (ufos[i].target.None? <==> |flock| == 0) && (ufos[i].target.Some? ==> ufos[i].target.value in flock)
    ensures forall i :: 0 <= i < |ufos| ==>
      ufos[i].abductionTimer == old(ufos[i].abductionTimer)
      && ufos[i].postAbductionPauseTimer == old(ufos[i].postAbductionPauseTimer)
      && ufos[i].translation == old(ufos[i].translation)
  {
    var k := 0;
    while k < |ufos|
      invariant 0 <= k <= |ufos|
      invariant forall i :: 0 <= i < k && !old(ufos[i].postAbductionPauseTimer).Finished() ==> ufos[i].target == None
      invariant forall i :: 0 <= i < k && old(ufos[i].postAbductionPauseTimer).Finished() && old(ufos[i].target).Some? ==>
        ufos[i].target == old(ufos[i].target)
      invariant forall i :: 0 <= i < k && old(ufos[i].postAbductionPauseTimer).Finished() && old(ufos[i].target).None? ==>
        (ufos[i].target.None? <==> |flock| == 0) && (ufos[i].target.Some? ==> ufos[i].target.value in flock)
      invariant forall i :: k <= i < |ufos| ==> ufos[i].target == old(ufos[i].target)
      invariant forall i :: 0 <= i < |ufos| ==>
        ufos[i].abductionTimer == old(ufos[i].abductionTimer)
        && ufos[i].postAbductionPauseTimer == old(ufos[i].postAbductionPauseTimer)
        && ufos[i].translation == old(ufos[i].translation)
    {
      var ufo := ufos[k];
      if !ufo.postAbductionPauseTimer.Finished() {
        ufo.target := None;
      } else if ufo.target.None? {
        if |flock| == 0 {
          ufo.target := None;
        } else {
          ufo.target := Some(flock[picks[k] % |flock|]);
        }
      }
      k := k + 1;
    }
  }

  /** Where the sheep `s` is in `flock`, if it is still there. */
  function IndexOf(flock: seq<Sheep>, s: Sheep): (r: Option<nat>)
    ensures r.None? <==> s !in flock
    ensures r.Some? ==> r.value < |flock| && flock[r.value] == s
  {
    if |flock| == 0 then None
    else if flock[|flock| - 1] == s then Some(|flock| - 1)
    else
      var prefix := flock[..|flock| - 1];
      assert forall i :: 0 <= i < |prefix| ==> prefix[i] == flock[i];
      IndexOf(prefix, s)
  }

  /** One step from `from` towards `to`, which is `d` away: `step` along the unit direction. */
  function Toward(from: Vec2, to: Vec2, d: real, step: real): Vec2
    requires d > 0.0
  {
    var dir := Vec2((to.x - from.x) / d, (to.y - from.y) / d);
    Vec2(from.x + dir.x * step, from.y + dir.y * step)
  }

  /** A step no longer than the distance lands between the start and the target in each coordinate: no overshoot. */
  lemma TowardNeverOvershoots(from: Vec2, to: Vec2, d: real, step: real)
    requires d > 0.0 && 0.0 <= step <= d
    ensures var p := Toward(from, to, d, step);
      (from.x <= p.x <= to.x || to.x <= p.x <= from.x) && (from.y <= p.y <= to.y || to.y <= p.y <= from.y)
  {
    var f := step / d;
    FractionInUnit(step, d);
    TowardIsLerp(from.x, to.x, d, step);
    TowardIsLerp(from.y, to.y, d, step);
    LerpBetween(from.x, to.x, f);
    LerpBetween(from.y, to.y, f);
  }

  /** A step of the whole distance lands exactly on the target. */
  lemma TowardFullStep(from: Vec2, to: Vec2, d: real)
    requires d > 0.0
    ensures Toward(from, to, d, d) == to
  {
    CancelDivision(to.x - from.x, d);
    CancelDivision(to.y - from.y, d);
  }

  lemma FractionInUnit(step: real, d: real)
    requires d > 0.0 && 0.0 <= step <= d
    ensures 0.0 <= step / d <= 1.0
  {
  }

  lemma TowardIsLerp(a: real, b: real, d: real, step: real)
    requires d > 0.0
    ensures a + ((b - a) / d) * step == Lerp(a, b, step / d)
  {
  }

  lemma CancelDivision(a: real, d: real)
    requires d > 0.0
    ensures (a / d) * d == a
  {
  }

  /** The step `update_ufo` takes: the UFO's speed over the frame, cut to the remaining distance. */
  function StepLength(dt: real, distance: real): (step: real)
    requires dt >= 0.0 && distance >= 0.0
    ensures 0.0 <= step <= distance && step <= UFO_SPEED * dt
    ensures step == distance || step == UFO_SPEED * dt
  {
    Min(UFO_SPEED * dt, distance)
  }

  /**
   * `update_ufo` for one UFO: pin it to its height; while pausing drop the
   * target; drop a target that has been despawned; otherwise fly towards it
   * (unless already on it), and once within reach drop the target, abducting
   * it first if the abduction timer has run out and the sheep is not already
   * being abducted, in which case both timers restart.
   */
  method UpdateUfo(ufo: Ufo, flock: seq<Sheep>, positions: seq<Vec2>, dt: real, len: Vec2 -> real)
    requires |positions| == |flock| && dt >= 0.0
    requires forall v :: len(v) >= 0.0
    modifies ufo, set i | 0 <= i < |flock| :: flock[i]
    ensures ufo.translation.y == UFO_HEIGHT
    ensures forall s :: s in flock && (old(ufo.target) != Some(s) || !old(ufo.postAbductionPauseTimer).Finished()) ==>
      s.state == old(s.state)
    ensures !old(ufo.postAbductionPauseTimer).Finished() ==>
      ufo.target == None && ufo.translation.Xz() == old(ufo.translation.Xz())
      && ufo.abductionTimer == old(ufo.abductionTimer) && ufo.postAbductionPauseTimer == old(ufo.postAbductionPauseTimer)
    ensures old(ufo.postAbductionPauseTimer).Finished() && old(ufo.target).None? ==>
      ufo.target == None && ufo.translation.Xz() == old(ufo.translation.Xz())
      && ufo.abductionTimer == old(ufo.abductionTimer) && ufo.postAbductionPauseTimer == old(ufo.postAbductionPauseTimer)
    ensures old(ufo.postAbductionPauseTimer).Finished() && old(ufo.target).Some? && old(ufo.target).value !in flock ==>
      ufo.target == None && ufo.translation.Xz() == old(ufo.translation.Xz())
      && ufo.abductionTimer == old(ufo.abductionTimer) && ufo.postAbductionPauseTimer == old(ufo.postAbductionPauseTimer)
    ensures old(ufo.postAbductionPauseTimer).Finished() && old(ufo.target).Some? && old(ufo.target).value in flock ==>
      var s := old(ufo.target).value;
      var from := old(ufo.translation.Xz());
      var to := positions[IndexOf(flock, s).value];
      var d := len(to.Sub(from));
      (d > EPSILON ==> ufo.translation.Xz() == Toward(from, to, d, StepLength(dt, d)))
      && (d <= EPSILON ==> ufo.translation.Xz() == from)
      && (d > UFO_TARGET_REACHED_DISTANCE ==>
            ufo.target == old(ufo.target) && s.state == old(s.state)
            && ufo.abductionTimer == old(ufo.abductionTimer) && ufo.postAbductionPauseTimer == old(ufo.postAbductionPauseTimer))
      && (d <= UFO_TARGET_REACHED_DISTANCE ==> ufo.target == None)
      && (d <= UFO_TARGET_REACHED_DISTANCE && old(ufo.abductionTimer).Finished() ==> s.state == BeingAbducted)
      && (d <= UFO_TARGET_REACHED_DISTANCE && !old(ufo.abductionTimer).Finished() ==> s.state == old(s.state))
      && (d <= UFO_TARGET_REACHED_DISTANCE && old(ufo.abductionTimer).Finished() && !old(s.state).BeingAbducted? ==>
            ufo.abductionTimer == old(ufo.abductionTimer).Reset()
            && ufo.postAbductionPauseTimer == old(ufo.postAbductionPauseTimer).Reset())
      && (d <= UFO_TARGET_REACHED_DISTANCE && (!old(ufo.abductionTimer).Finished() || old(s.state).BeingAbducted?) ==>
            ufo.abductionTimer == old(ufo.abductionTimer) && ufo.postAbductionPauseTimer == old(ufo.postAbductionPauseTimer))
  {
    ufo.translation := ufo.translation.(y := UFO_HEIGHT);
    if !ufo.postAbductionPauseTimer.Finished() {
      ufo.target := None;
      return;
    }
    if ufo.target.None? {
      return;
    }
    var target := ufo.target.value;
    var idx := IndexOf(flock, target);
    if idx.None? {
      ufo.target := None;
      return;
    }
    var targetPos := positions[idx.value];
    var ufoPos := ufo.translation.Xz();
    var toTarget := targetPos.Sub(ufoPos);
    var distance := len(toTarget);
    if distance > EPSILON {
      var step := StepLength(dt, distance);
      var moved := Toward(ufoPos, targetPos, distance, step);
      ufo.translation := ufo.translation.(x := moved.x, z := moved.y);
    }
    if distance <= UFO_TARGET_REACHED_DISTANCE {
      if ufo.abductionTimer.Finished() {
        var started := target.StartAbduction();
        if started {
          ufo.abductionTimer := ufo.abductionTimer.Reset();
          ufo.postAbductionPauseTimer := ufo.postAbductionPauseTimer.Reset();
        }
        ufo.target := None;
      } else {
        ufo.target := None;
      }
    }
  }

  /** The views of all UFOs. */
  function ViewsOf(ufos: seq<Ufo>): (r: seq<UfoView>)
    reads set i | 0 <= i < |ufos| :: ufos[i]
    ensures |r| == |ufos| && forall i :: 0 <= i < |ufos| ==> r[i] == ufos[i].View()
  {
    seq(|ufos|, i reads set j | 0 <= j < |ufos| :: ufos[j] requires 0 <= i < |ufos| => ufos[i].View())
  }

  /** The UFO is past its pause and its target is still in the flock: it flies towards it this frame. */
  predicate Tracks(v: UfoView, flock: seq<Sheep>)
  {
    v.pauseTimer.Finished() && v.target.Some? && v.target.value in flock
  }

  /** Where a tracked UFO's target stands. */
  function TargetPos(v: UfoView, flock: seq<Sheep>, positions: seq<Vec2>): Vec2
    requires Tracks(v, flock) && |positions| == |flock|
  {
    positions[IndexOf(flock, v.target.value).value]
  }

  /** The ground distance from a tracked UFO to its target. */
  function TargetDistance(v: UfoView, flock: seq<Sheep>, positions: seq<Vec2>, len: Vec2 -> real): real
    requires Tracks(v, flock) && |positions| == |flock|
  {
    len(TargetPos(v, flock, positions).Sub(v.translation.Xz()))
  }

  /** The UFO takes sheep `s` this frame: `s` is its tracked target, within reach, and the abduction timer has run out. */
  predicate Grabs(v: UfoView, s: Sheep, flock: seq<Sheep>, positions: seq<Vec2>, len: Vec2 -> real)
    requires |positions| == |flock|
  {
    Tracks(v, flock) && v.target == Some(s) && v.abductionTimer.Finished()
    && TargetDistance(v, flock, positions, len) <= UFO_TARGET_REACHED_DISTANCE
  }

  /** One of the first `n` UFOs takes `s`. */
  predicate GrabbedBy(views: seq<UfoView>, n: nat, s: Sheep, flock: seq<Sheep>, positions: seq<Vec2>, len: Vec2 -> real)
    requires n <= |views| && |positions| == |flock|
  {
    exists j :: 0 <= j < n && Grabs(views[j], s, flock, positions, len)
  }

  lemma GrabbedByStep(views: seq<UfoView>, n: nat, s: Sheep, flock: seq<Sheep>, positions: seq<Vec2>, len: Vec2 -> real)
    requires n < |views| && |positions| == |flock|
    ensures GrabbedBy(views, n + 1, s, flock, positions, len) <==>
      GrabbedBy(views, n, s, flock, positions, len) || Grabs(views[n], s, flock, positions, len)
  {
    if GrabbedBy(views, n + 1, s, flock, positions, len) {
      var j :| 0 <= j < n + 1 && Grabs(views[j], s, flock, positions, len);
      if j < n {
        assert GrabbedBy(views, n, s, flock, positions, len);
      }
    }
  }

  /** The target of a UFO was being abducted before the frame: `states` holds the flock's states then. */
  predicate TargetWasAbducted(v: UfoView, flock: seq<Sheep>, states: seq<SheepState>)
    requires |states| == |flock|
  {
    v.target.Some? && v.target.value in flock && states[IndexOf(flock, v.target.value).value].BeingAbducted?
  }

  /**
   * UFO `i` starts an abduction, and so restarts its timers: it takes its
   * target, which was not being abducted before the frame and which no
   * earlier UFO took.
   */
  predicate StartsAbduction(views: seq<UfoView>, i: nat, flock: seq<Sheep>, states: seq<SheepState>,
                            positions: seq<Vec2>, len: Vec2 -> real)
    requires i < |views| && |states| == |flock| && |positions| == |flock|
  {
    views[i].target.Some? && Grabs(views[i], views[i].target.value, flock, positions, len)
    && !TargetWasAbducted(views[i], flock, states) && !GrabbedBy(views, i, views[i].target.value, flock, positions, len)
  }

  /** No sheep starts two abductions: two UFOs with the same target never both restart their timers. */
  lemma OneAbductionPerSheep(views: seq<UfoView>, i: nat, j: nat, flock: seq<Sheep>, states: seq<SheepState>,
                             positions: seq<Vec2>, len: Vec2 -> real)
    requires i < |views| && j < |views| && |states| == |flock| && |positions| == |flock|
    requires i != j && views[i].target == views[j].target
    ensures !(StartsAbduction(views, i, flock, states, positions, len) && StartsAbduction(views, j, flock, states, positions, len))
  {
    if i < j && StartsAbduction(views, i, flock, states, positions, len) {
      assert GrabbedBy(views, j, views[j].target.value, flock, positions, len);
    }
    if j < i && StartsAbduction(views, j, flock, states, positions, len) {
      assert GrabbedBy(views, i, views[i].target.value, flock, positions, len);
    }
  }

  /** Where the UFO is over the ground after the frame: one step towards a tracked target more than `EPSILON` away. */
  function FlownXz(v: UfoView, flock: seq<Sheep>, positions: seq<Vec2>, dt: real, len: Vec2 -> real): Vec2
    requires |positions| == |flock| && dt >= 0.0
  {
    if Tracks(v, flock) && TargetDistance(v, flock, positions, len) > EPSILON then
      var d := TargetDistance(v, flock, positions, len);
      Toward(v.translation.Xz(), TargetPos(v, flock, positions), d, StepLength(dt, d))
    else v.translation.Xz()
  }

  /** The UFO never flies past its target. */
  lemma FlownNeverOvershoots(v: UfoView, flock: seq<Sheep>, positions: seq<Vec2>, dt: real, len: Vec2 -> real)
    requires |positions| == |flock| && dt >= 0.0 && Tracks(v, flock)
    ensures var p := FlownXz(v, flock, positions, dt, len);
      var from := v.translation.Xz();
      var to := TargetPos(v, flock, positions);
      (from.x <= p.x <= to.x || to.x <= p.x <= from.x) && (from.y <= p.y <= to.y || to.y <= p.y <= from.y)
  {
    var d := TargetDistance(v, flock, positions, len);
    if d > EPSILON {
      TowardNeverOvershoots(v.translation.Xz(), TargetPos(v, flock, positions), d, StepLength(dt, d));
    }
  }

  /** A tracked target within one frame's flight is reached exactly. */
  lemma FlownArrives(v: UfoView, flock: seq<Sheep>, positions: seq<Vec2>, dt: real, len: Vec2 -> real)
    requires |positions| == |flock| && dt >= 0.0 && Tracks(v, flock)
    requires EPSILON < TargetDistance(v, flock, positions, len) <= UFO_SPEED * dt
    ensures FlownXz(v, flock, positions, dt, len) == TargetPos(v, flock, positions)
  {
    TowardFullStep(v.translation.Xz(), TargetPos(v, flock, positions), TargetDistance(v, flock, positions, len));
  }

  /** The target a UFO keeps through the frame. */
  function KeptTarget(v: UfoView, flock: seq<Sheep>, positions: seq<Vec2>, len: Vec2 -> real): (t: Option<Sheep>)
    requires |positions| == |flock|
    ensures t.Some? <==> Tracks(v, flock) && TargetDistance(v, flock, positions, len) > UFO_TARGET_REACHED_DISTANCE
    ensures t.Some? ==> t == v.target
  {
    if Tracks(v, flock) && TargetDistance(v, flock, positions, len) > UFO_TARGET_REACHED_DISTANCE then v.target else None
  }

  /** A translation at the hovering height over the ground point `p`. */
  function Hover(p: Vec2): Vec3
  {
    Vec3(p.x, UFO_HEIGHT, p.y)
  }

  /**
   * `update_ufo` on UFO `k` in terms of its view before the call: where it
   * flies, which target it keeps, whether its timers restart, and which
   * sheep it takes. Every other UFO stays.
   */
  method UpdateUfoAt(ufos: seq<Ufo>, k: nat, flock: seq<Sheep>, positions: seq<Vec2>, dt: real, len: Vec2 -> real)
    requires k < |ufos| && |positions| == |flock| && dt >= 0.0
    requires forall v :: len(v) >= 0.0
    requires forall i :: 0 <= i < |ufos| && i != k ==> ufos[i] != ufos[k]
    modifies ufos[k], set i | 0 <= i < |flock| :: flock[i]
    ensures ufos[k].translation == Hover(FlownXz(old(ufos[k].View()), flock, positions, dt, len))
    ensures ufos[k].target == KeptTarget(old(ufos[k].View()), flock, positions, len)
    ensures var v := old(ufos[k].View());
      if v.target.Some? && Grabs(v, v.target.value, flock, positions, len) && !old(v.target.value.state).BeingAbducted?
      then ufos[k].abductionTimer == v.abductionTimer.Reset() && ufos[k].postAbductionPauseTimer == v.pauseTimer.Reset()
      else ufos[k].abductionTimer == v.abductionTimer && ufos[k].postAbductionPauseTimer == v.pauseTimer
    ensures forall i :: 0 <= i < |flock| ==>
      flock[i].state == (if Grabs(old(ufos[k].View()), flock[i], flock, positions, len) then BeingAbducted else old(flock[i].state))
    ensures forall i :: 0 <= i < |ufos| && i != k ==> ufos[i].View() == old(ufos[i].View())
  {
    UpdateUfo(ufos[k], flock, positions, dt, len);
  }

  /**
   * `update_ufo` over all UFOs, in order. Each UFO flies and keeps or drops
   * its target as its own state before the frame decides; a sheep ends up
   * being abducted when some UFO takes it and keeps its state otherwise; a
   * UFO restarts its timers exactly when it starts an abduction, which at
   * most one UFO does for any sheep.
   */
  method UpdateUfos(ufos: seq<Ufo>, flock: seq<Sheep>, positions: seq<Vec2>, dt: real, len: Vec2 -> real)
    requires |positions| == |flock| && dt >= 0.0
    requires forall v :: len(v) >= 0.0
    requires forall i, j :: 0 <= i < j < |ufos| ==> ufos[i] != ufos[j]
    modifies set i | 0 <= i < |ufos| :: ufos[i]
    modifies set i | 0 <= i < |flock| :: flock[i]
    ensures forall i :: 0 <= i < |ufos| ==>
      ufos[i].translation == Hover(FlownXz(old(ufos[i].View()), flock, positions, dt, len))
      && ufos[i].target == KeptTarget(old(ufos[i].View()), flock, positions, len)
    ensures forall i :: 0 <= i < |ufos| ==>
      var v := old(ufos[i].View());
      if StartsAbduction(old(ViewsOf(ufos)), i, flock, old(StatesOf(flock)), positions, len)
      then ufos[i].abductionTimer == v.abductionTimer.Reset() && ufos[i].postAbductionPauseTimer == v.pauseTimer.Reset()
      else ufos[i].abductionTimer == v.abductionTimer && ufos[i].postAbductionPauseTimer == v.pauseTimer
    ensures forall i :: 0 <= i < |flock| ==>
      flock[i].state == (if GrabbedBy(old(ViewsOf(ufos)), |ufos|, flock[i], flock, positions, len)
                         then BeingAbducted else old(flock[i].state))
  {
    ghost var views := ViewsOf(ufos);
    ghost var states := StatesOf(flock);
    var k := 0;
    while k < |ufos|
      invariant 0 <= k <= |ufos|
      invariant forall i :: 0 <= i < k ==>
        ufos[i].translation == Hover(FlownXz(views[i], flock, positions, dt, len))
        && ufos[i].target == KeptTarget(views[i], flock, positions, len)
      invariant forall i :: 0 <= i < k ==>
        if StartsAbduction(views, i, flock, states, positions, len)
        then ufos[i].abductionTimer == views[i].abductionTimer.Reset()
             && ufos[i].postAbductionPauseTimer == views[i].pauseTimer.Reset()
        else ufos[i].abductionTimer == views[i].abductionTimer && ufos[i].postAbductionPauseTimer == views[i].pauseTimer
      invariant forall i :: k <= i < |ufos| ==> ufos[i].View() == views[i]
      invariant forall i :: 0 <= i < |flock| ==>
        flock[i].state == (if GrabbedBy(views, k, flock[i], flock, positions, len) then BeingAbducted else states[i])
    {
      forall i | 0 <= i < |flock|
        ensures GrabbedBy(views, k + 1, flock[i], flock, positions, len) <==>
          GrabbedBy(views, k, flock[i], flock, positions, len) || Grabs(views[k], flock[i], flock, positions, len)
      {
        GrabbedByStep(views, k, flock[i], flock, positions, len);
      }
      UpdateUfoAt(ufos, k, flock, positions, dt, len);
      k := k + 1;
    }
  }
}
