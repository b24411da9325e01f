/**
 * The hop controller that moves both the dog and the sheep: an entity stands
 * still between hops, and when its timer runs out it either lands (if it was
 * in the air) or jumps from where it stands towards its intent (if the intent
 * is far enough away). While airborne its position follows a parabola from
 * the hop's source to its destination.
 */
module Movement {
  import opened Wrappers
  import opened Timers
  import opened Geometry

  /** Squared distance the intent must exceed before a hop starts. */
  const HOP_THRESHOLD_SQ: real := 0.4

  /** Height of a grounded entity's origin above the ground. */
  const GROUND_OFFSET: real := 0.5

  /** The controller's fields, as one value. */
  datatype HopState = HopState(
    intent: Vec2,
    currentHopSrc: Option<Vec2>,
    currentHopDest: Option<Vec2>,
    moveSpeedMult: real,
    hopSpeedMult: real,
    timeBetweenHops: real,
    hopTimeLength: real,
    airborne: bool,
    timer: Timer)
  {
    /**
     * The durations the controller turns into engine durations are not
     * negative (the engine panics on a negative duration), and its timer is
     * well formed.
     */
    predicate Sane()
    {
      hopSpeedMult >= 0.0 && timeBetweenHops >= 0.0 && hopTimeLength >= 0.0 && timer.Valid()
    }

    /** In the air, the hop being made is known. */
    predicate HopKnown()
    {
      airborne ==> currentHopSrc.Some? && currentHopDest.Some?
    }
  }

  /** `HopMovementController::default`. */
  const DEFAULT_HOP: HopState := HopState(ZERO, None, None, 3.0, 1.0, 0.2, 0.3, false, FromSeconds(0.5))

  /** `HopMovementController::update` as a function of the controller before the call. */
  function Stepped(s: HopState, dt: real, pos: Vec2): (r: HopState)
    requires dt >= 0.0 && s.Sane()
    ensures r.Sane()
    ensures r.intent == s.intent && r.moveSpeedMult == s.moveSpeedMult && r.hopSpeedMult == s.hopSpeedMult
    ensures r.timeBetweenHops == s.timeBetweenHops && r.hopTimeLength == s.hopTimeLength
  {
    MulNonNegative(dt, s.hopSpeedMult);
    var t := s.timer.Tick(dt * s.hopSpeedMult);
    if !t.Finished() then
      s.(timer := t)
    else if s.airborne then
      s.(airborne := false, timer := t.WithDuration(s.timeBetweenHops).Reset())
    else if DistSq(s.intent, pos) > HOP_THRESHOLD_SQ then
      s.(airborne := true, timer := t.WithDuration(s.hopTimeLength).Reset(),
         currentHopSrc := Some(pos), currentHopDest := Some(s.intent))
    else
      s.(timer := t)
  }

  lemma MulNonNegative(a: real, b: real)
    requires a >= 0.0 && b >= 0.0
    ensures a * b >= 0.0
  {
  }

  /** The tick `update` applies: the frame time scaled by the hop speed. */
  function Ticked(s: HopState, dt: real): (t: Timer)
    requires dt >= 0.0 && s.Sane()
    ensures t.Valid() && t.duration == s.timer.duration
  {
    MulNonNegative(dt, s.hopSpeedMult);
    s.timer.Tick(dt * s.hopSpeedMult)
  }

  /** An unfinished tick only advances the timer. */
  lemma SteppedWhileRunning(s: HopState, dt: real, pos: Vec2)
    requires dt >= 0.0 && s.Sane() && !Ticked(s, dt).Finished()
    ensures Stepped(s, dt, pos) == s.(timer := Ticked(s, dt))
  {
  }

  /** Landing: the timer ran out in the air; the wait between hops starts and the hop's ends are kept. */
  lemma SteppedLands(s: HopState, dt: real, pos: Vec2)
    requires dt >= 0.0 && s.Sane() && s.airborne && Ticked(s, dt).Finished()
    ensures !Stepped(s, dt, pos).airborne
    ensures Stepped(s, dt, pos).timer == Timer(0.0, s.timeBetweenHops)
    ensures Stepped(s, dt, pos).currentHopSrc == s.currentHopSrc
    ensures Stepped(s, dt, pos).currentHopDest == s.currentHopDest
  {
  }

  /** A hop starts exactly when grounded, the wait is over and the intent is more than the threshold away. */
  lemma SteppedStartsHop(s: HopState, dt: real, pos: Vec2)
    requires dt >= 0.0 && s.Sane()
    ensures !s.airborne && Stepped(s, dt, pos).airborne <==>
      !s.airborne && Ticked(s, dt).Finished() && DistSq(s.intent, pos) > HOP_THRESHOLD_SQ
    ensures !s.airborne && Stepped(s, dt, pos).airborne ==>
      Stepped(s, dt, pos).timer == Timer(0.0, s.hopTimeLength)
      && Stepped(s, dt, pos).currentHopSrc == Some(pos)
      && Stepped(s, dt, pos).currentHopDest == Some(s.intent)
  {
  }

  /** Grounded with the intent close by, only the timer's elapsed time moves. */
  lemma SteppedIdle(s: HopState, dt: real, pos: Vec2)
    requires dt >= 0.0 && s.Sane() && !s.airborne && DistSq(s.intent, pos) <= HOP_THRESHOLD_SQ
    ensures Stepped(s, dt, pos) == s.(timer := Ticked(s, dt))
    ensures Stepped(s, dt, pos).timer.duration == s.timer.duration
  {
  }

  /** `update` keeps the hop's ends known whenever the entity is in the air. */
  lemma SteppedKeepsHopKnown(s: HopState, dt: real, pos: Vec2)
    requires dt >= 0.0 && s.Sane() && s.HopKnown()
    ensures Stepped(s, dt, pos).HopKnown()
  {
  }

  /** The default controller is only ticked while its first half second runs. */
  lemma DefaultWaitsHalfSecond()
    ensures DEFAULT_HOP.Sane()
    ensures Stepped(DEFAULT_HOP, 0.25, ZERO) == DEFAULT_HOP.(timer := Timer(0.25, 0.5))
  {
    assert Ticked(DEFAULT_HOP, 0.25) == Timer(0.25, 0.5);
  }

  /** The default controller jumps at an intent three units away once half a second has passed. */
  lemma DefaultHopsAfterHalfSecond(s: HopState)
    requires s == DEFAULT_HOP.(intent := Vec2(3.0, 0.0))
    ensures Stepped(s, 0.5, ZERO).airborne
    ensures Stepped(s, 0.5, ZERO).currentHopSrc == Some(ZERO)
    ensures Stepped(s, 0.5, ZERO).currentHopDest == Some(Vec2(3.0, 0.0))
    ensures Stepped(s, 0.5, ZERO).timer == Timer(0.0, 0.3)
  {
    assert Ticked(s, 0.5) == Timer(0.5, 0.5);
    ThreeUnitsIsFar();
    SteppedStartsHop(s, 0.5, ZERO);
  }

  lemma ThreeUnitsIsFar()
    ensures DistSq(Vec2(3.0, 0.0), ZERO) > HOP_THRESHOLD_SQ
  {
    assert Vec2(3.0, 0.0).Sub(ZERO) == Vec2(3.0, 0.0);
    assert NormSq(Vec2(3.0, 0.0)) == 9.0;
  }

  /** `jump_height`: the parabola `4t(1 - t)` over the hop's progress `t`. */
  function JumpHeight(t: real): real
  {
    4.0 * t * (1.0 - t)
  }

  /** The parabola is on the ground at both ends and one unit high at the middle. */
  lemma JumpHeightEnds()
    ensures JumpHeight(0.0) == 0.0 && JumpHeight(1.0) == 0.0 && JumpHeight(0.5) == 1.0
  {
  }

  /** Over a hop the height stays between zero and one. */
  lemma JumpHeightBounds(t: real)
    requires 0.0 <= t <= 1.0
    ensures 0.0 <= JumpHeight(t) <= 1.0
  {
    MulNonNegative(t, 1.0 - t);
    var u := 2.0 * t - 1.0;
    SquareNonNegative(u);
    assert 1.0 - JumpHeight(t) == u * u;
  }

  /**
   * The translation `apply_hop_movement` writes: in the air with a known hop,
   * the ground position interpolates from source to destination by the
   * timer's fraction, and the height follows the jump parabola; otherwise the
   * translation is left alone.
   */
  function HopTranslation(s: HopState, tr: Vec3): Vec3
  {
    if s.airborne && s.currentHopSrc.Some? && s.currentHopDest.Some? then
      var src := s.currentHopSrc.value;
      var dest := s.currentHopDest.value;
      var f := s.timer.Fraction();
      Vec3(Lerp(src.x, dest.x, f), JumpHeight(f) + GROUND_OFFSET, Lerp(src.y, dest.y, f))
    else
      tr
  }

  /** In the air, the entity stays over the segment's bounding box and between 0.5 and 1.5 high. */
  lemma HopTranslationBounds(s: HopState, tr: Vec3)
    requires s.timer.Valid() && s.airborne && s.HopKnown()
    ensures var p := HopTranslation(s, tr);
      var src := s.currentHopSrc.value;
      var dest := s.currentHopDest.value;
      (src.x <= p.x <= dest.x || dest.x <= p.x <= src.x)
      && (src.y <= p.z <= dest.y || dest.y <= p.z <= src.y)
      && GROUND_OFFSET <= p.y <= 1.0 + GROUND_OFFSET
  {
    var f := s.timer.Fraction();
    LerpBetween(s.currentHopSrc.value.x, s.currentHopDest.value.x, f);
    LerpBetween(s.currentHopSrc.value.y, s.currentHopDest.value.y, f);
    JumpHeightBounds(f);
  }

  /** A hop that has just started is drawn at its source, on the ground. */
  lemma HopTranslationEnds(s: HopState, tr: Vec3)
    requires s.airborne && s.HopKnown() && s.timer.Valid() && s.timer.duration > 0.0
    ensures s.timer.elapsed == 0.0 ==>
      HopTranslation(s, tr) == Vec3(s.currentHopSrc.value.x, GROUND_OFFSET, s.currentHopSrc.value.y)
  {
    LerpEnds(s.currentHopSrc.value.x, s.currentHopDest.value.x);
    JumpHeightEnds();
  }

  /**
   * `update` never leaves an entity in the air with its timer run out: the
   * tick that finishes a hop lands it. So `apply_hop_movement` never draws
   * a hop at its destination.
   */
  lemma AirborneNeverFinished(s: HopState, dt: real, pos: Vec2)
    requires dt >= 0.0 && s.Sane() && s.hopTimeLength > 0.0
    ensures Stepped(s, dt, pos).airborne ==> !Stepped(s, dt, pos).timer.Finished()
  {
  }

  /** On the landing tick the translation is not rewritten: the entity stays where the last airborne frame drew it. */
  lemma LandingKeepsTranslation(s: HopState, dt: real, pos: Vec2, tr: Vec3)
    requires dt >= 0.0 && s.Sane() && s.airborne && Ticked(s, dt).Finished()
    ensures HopTranslation(Stepped(s, dt, pos), tr) == tr
  {
    SteppedLands(s, dt, pos);
  }

  /**
   * A hop of 0.3 seconds at frames of 0.1 seconds is last drawn two thirds
   * of the way along and 25/18 high; the landing frame leaves it there, off
   * the ground, until the next hop starts from that point.
   */
  lemma HopEndsInTheAir(tr: Vec3)
    ensures var s := DEFAULT_HOP.(airborne := true, currentHopSrc := Some(ZERO),
                                  currentHopDest := Some(Vec2(3.0, 0.0)), timer := Timer(0.2, 0.3));
      var drawn := HopTranslation(s, tr);
      drawn == Vec3(2.0, 25.0 / 18.0, 0.0)
      && !Stepped(s, 0.1, drawn.Xz()).airborne
      && HopTranslation(Stepped(s, 0.1, drawn.Xz()), drawn) == drawn
  {
    var s := DEFAULT_HOP.(airborne := true, currentHopSrc := Some(ZERO),
                          currentHopDest := Some(Vec2(3.0, 0.0)), timer := Timer(0.2, 0.3));
    assert s.timer.Fraction() == 2.0 / 3.0;
    assert JumpHeight(2.0 / 3.0) == 8.0 / 9.0;
    assert Ticked(s, 0.1) == Timer(0.3, 0.3);
    LandingKeepsTranslation(s, 0.1, HopTranslation(s, tr).Xz(), HopTranslation(s, tr));
  }

  class HopMovementController {
    var intent: Vec2
    var currentHopSrc: Option<Vec2>
    var currentHopDest: Option<Vec2>
    var moveSpeedMult: real
    var hopSpeedMult: real
    var timeBetweenHops: real
    var hopTimeLength: real
    var airborne: bool
    var timer: Timer

    function Model(): HopState
      reads this
    {
      HopState(intent, currentHopSrc, currentHopDest, moveSpeedMult, hopSpeedMult,
               timeBetweenHops, hopTimeLength, airborne, timer)
    }

    /** `HopMovementController::default`. */
    constructor Default()
      ensures Model() == DEFAULT_HOP
    {
      intent := ZERO;
      currentHopSrc := None;
      currentHopDest := None;
      moveSpeedMult := 3.0;
      hopSpeedMult := 1.0;
      timeBetweenHops := 0.2;
      hopTimeLength := 0.3;
      airborne := false;
      timer := FromSeconds(0.5);
    }

    /** `apply_movement`: the intent moves by `direction` scaled by the move speed; nothing else changes. */
    method ApplyMovement(direction: Vec2)
      modifies this
      ensures Model() == old(Model()).(intent := old(intent).Add(direction.Scale(moveSpeedMult)))
    {
      intent := intent.Add(direction.Scale(moveSpeedMult));
    }

    /** `update`: tick, then land or start a hop when the timer has run out. */
    method Update(dt: real, currentPos: Vec2)
      requires dt >= 0.0 && Model().Sane()
      modifies this
      ensures Model() == Stepped(old(Model()), dt, currentPos)
    {
      MulNonNegative(dt, hopSpeedMult);
      timer := timer.Tick(dt * hopSpeedMult);
      if timer.Finished() {
        if airborne {
          airborne := false;
          timer := timer.WithDuration(timeBetweenHops);
          timer := timer.Reset();
        } else {
          if DistSq(intent, currentPos) > HOP_THRESHOLD_SQ {
            airborne := true;
            timer := timer.WithDuration(hopTimeLength);
            timer := timer.Reset();
            currentHopSrc := Some(currentPos);
            currentHopDest := Some(intent);
          }
        }
      }
    }
  }

  /**
   * `apply_hop_movement`: each entity's controller is updated from the
   * entity's ground position, then its translation is rewritten if it is in
   * the air. `controllers[i]` and `translations[i]` belong to entity `i`.
   */
  method ApplyHopMovement(controllers: seq<HopMovementController>, translations: seq<Vec3>, dt: real)
    returns (moved: seq<Vec3>)
    requires |controllers| == |translations| && dt >= 0.0
    requires forall i, j :: 0 <= i < j < |controllers| ==> controllers[i] != controllers[j]
    requires forall i :: 0 <= i < |controllers| ==> controllers[i].Model().Sane()
    modifies set i | 0 <= i < |controllers| :: controllers[i]
    ensures |moved| == |translations|
    ensures forall i :: 0 <= i < |controllers| ==>
      controllers[i].Model() == Stepped(old(controllers[i].Model()), dt, translations[i].Xz())
    ensures forall i :: 0 <= i < |controllers| ==> moved[i] == HopTranslation(controllers[i].Model(), translations[i])
  {
    moved := [];
    var k := 0;
    while k < |controllers|
      invariant 0 <= k <= |controllers| && |moved| == k
      invariant forall i :: 0 <= i < k ==>
        controllers[i].Model() == Stepped(old(controllers[i].Model()), dt, translations[i].Xz())
      invariant forall i :: k <= i < |controllers| ==> controllers[i].Model() == old(controllers[i].Model())
      invariant forall i :: 0 <= i < k ==> moved[i] == HopTranslation(controllers[i].Model(), translations[i])
    {
      var c := controllers[k];
      c.Update(dt, translations[k].Xz());
      moved := moved + [HopTranslation(c.Model(), translations[k])];
      k := k + 1;
    }
  }
}
