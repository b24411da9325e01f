/**
 * Sheep behaviour. A sheep wanders on a timer, evades a dog that comes
 * within five units, runs from a bark until it is ten units from where the
 * dog stood, is drawn into the goal once within its radius, and rises into
 * the sky once a UFO takes it. The systems that drive these states run over
 * the whole flock each frame: goal check, state update, then wandering and
 * the abduction ascent.
 *
 * Entity `i` of a system is `flock[i]` with its controller `controllers[i]`
 * and its ground position `positions[i]` (the translation's x and z). The
 * straight-line distance `distance` is the caller-supplied length function
 * `len`; squared distances are computed exactly.
 */
module Flock {
  import opened Wrappers
  import opened Vecs
  import opened Timers
  import opened Geometry
  import opened Level
  import opened Modifiers
  import opened Movement
  import opened GameStates
  import opened UfoParams

  /** Distance under which a dog makes a sheep evade. */
  const SHEEP_INTERACT_RANGE: real := 5.0

  /** Rate at which an abducted sheep rises, in units per second. */
  const ABDUCTION_ASCENT_SPEED: real := 6.0

  /** Squared distance from the goal under which a sheep being counted scores. */
  const SCORE_DISTANCE_SQ: real := 1.5

  /** The range the wandering wait is drawn from, `[MIN_WAIT, MAX_WAIT)`. */
  const MIN_WAIT: real := 1.5
  const MAX_WAIT: real := 5.0

  datatype SheepState =
    | Wander(timer: Timer)
    | Evading(danger: Vec2)
    | Spooked(danger: Vec2)
    | BeingCounted
    | BeingAbducted

  /** The tuning a sheep's movement uses. */
  datatype SheepTuning = SheepTuning(stepDistance: real, defaultSpeedMult: real, spookedSpeedMult: real)

  /** `reset_timer` on the state: a wandering sheep waits `wait` seconds from now; other states are untouched. */
  function WithFreshWait(s: SheepState, wait: real): SheepState
  {
    if s.Wander? then Wander(s.timer.WithDuration(wait).Reset()) else s
  }

  /** `become_spooked` on the state. */
  function SpookedBy(s: SheepState, danger: Vec2): SheepState
  {
    match s
    case Wander(_) => Spooked(danger)
    case Evading(_) => Spooked(danger)
    case _ => s
  }

  class Sheep {
    var state: SheepState
    const stepDistance: real
    const minWait: real
    const maxWait: real
    const defaultSpeedMult: real
    const spookedSpeedMult: real

    /** `Sheep::new`: default tuning, wandering with a fresh wait of `wait` seconds drawn from `[1.5, 5)`. */
    constructor New(wait: real)
      requires MIN_WAIT <= wait < MAX_WAIT
      ensures state == Wander(Timer(0.0, wait))
      ensures stepDistance == 2.0 && minWait == MIN_WAIT && maxWait == MAX_WAIT
      ensures defaultSpeedMult == 1.0 && spookedSpeedMult == 2.0
    {
      state := Wander(FromSeconds(1.0));
      stepDistance := 2.0;
      minWait := MIN_WAIT;
      maxWait := MAX_WAIT;
      defaultSpeedMult := 1.0;
      spookedSpeedMult := 2.0;
      new;
      ResetTimer(wait);
    }

    /**
     * `Sheep::new()` followed by the three builder calls `sheep()` makes:
     * the default speed is the flock's move speed, and the spooked speed and
     * the step distance are twice that.
     */
    constructor Tuned(wait: real, moveSpeedMult: real)
      requires MIN_WAIT <= wait < MAX_WAIT
      ensures state == Wander(Timer(0.0, wait))
      ensures minWait == MIN_WAIT && maxWait == MAX_WAIT
      ensures defaultSpeedMult == moveSpeedMult
      ensures spookedSpeedMult == moveSpeedMult * 2.0 && stepDistance == moveSpeedMult * 2.0
    {
      state := Wander(FromSeconds(1.0));
      stepDistance := moveSpeedMult * 2.0;
      minWait := MIN_WAIT;
      maxWait := MAX_WAIT;
      defaultSpeedMult := moveSpeedMult;
      spookedSpeedMult := moveSpeedMult * 2.0;
      new;
      ResetTimer(wait);
    }

    function Tuning(): SheepTuning
    {
      SheepTuning(stepDistance, defaultSpeedMult, spookedSpeedMult)
    }

    /** `reset_timer`; `wait` is the value drawn from `[min_wait, max_wait)`. */
    method ResetTimer(wait: real)
      requires minWait <= wait < maxWait
      modifies this
      ensures state == WithFreshWait(old(state), wait)
    {
      if state.Wander? {
        var timer := state.timer.WithDuration(wait);
        timer := timer.Reset();
        state := Wander(timer);
      }
    }

    /** `become_spooked`. */
    method BecomeSpooked(danger: Vec2)
      modifies this
      ensures state == SpookedBy(old(state), danger)
    {
      match state {
        case Wander(_) => state := Spooked(danger);
        case Evading(_) => state := Spooked(danger);
        case Spooked(_) =>
        case BeingCounted =>
        case BeingAbducted =>
      }
    }

    predicate IsBeingAbducted()
      reads this
    {
      state.BeingAbducted?
    }

    /** `start_abduction`: refused by a sheep already being abducted, accepted from every other state. */
    method StartAbduction() returns (started: bool)
      modifies this
      ensures started <==> !old(state).BeingAbducted?
      ensures state == BeingAbducted
    {
      if IsBeingAbducted() {
        return false;
      }
      state := BeingAbducted;
      started := true;
    }
  }

  /** A fresh wait always restarts a wandering sheep's timer from zero with the drawn duration. */
  lemma FreshWaitRestarts(s: SheepState, wait: real)
    requires s.Wander? && wait >= MIN_WAIT
    ensures WithFreshWait(s, wait) == Wander(Timer(0.0, wait))
    ensures !WithFreshWait(s, wait).timer.Finished()
  {
  }

  /** The half-second timer set on returning to wandering never survives the reset that follows it. */
  lemma ReturnTimerOverwritten(wait: real)
    requires wait >= MIN_WAIT
    ensures WithFreshWait(Wander(FromSeconds(0.5)), wait) == Wander(Timer(0.0, wait))
    ensures WithFreshWait(Wander(FromSeconds(0.5)), wait).timer.duration != 0.5
  {
  }

  /** A bark spooks a wandering or evading sheep and leaves every other state alone. */
  lemma SpookTransitions(s: SheepState, danger: Vec2)
    ensures s.Wander? || s.Evading? <==> SpookedBy(s, danger) == Spooked(danger) && !s.Spooked?
    ensures !(s.Wander? || s.Evading?) ==> SpookedBy(s, danger) == s
  {
  }

  /** A second bark does not move the danger a spooked sheep runs from. */
  lemma SpookIdempotent(s: SheepState, first: Vec2, second: Vec2)
    ensures SpookedBy(SpookedBy(s, first), second) == SpookedBy(s, first)
  {
  }

  /** Whether `other` is within the interaction range of a sheep at `pos`. */
  predicate InRange(len: Vec2 -> real, pos: Vec2, other: Vec2)
  {
    len(pos.Sub(other)) < SHEEP_INTERACT_RANGE
  }

  /** The last of `players` in range of `pos`: the scan over the dogs overwrites on every hit. */
  function LastInRange(len: Vec2 -> real, pos: Vec2, players: seq<Vec2>): (r: Option<Vec2>)
    ensures r.None? <==> forall i :: 0 <= i < |players| ==> !InRange(len, pos, players[i])
    ensures r.Some? ==> r.value in players && InRange(len, pos, r.value)
  {
    if |players| == 0 then None
    else if InRange(len, pos, players[|players| - 1]) then Some(players[|players| - 1])
    else
      var prefix := players[..|players| - 1];
      assert forall i :: 0 <= i < |prefix| ==> prefix[i] == players[i];
      LastInRange(len, pos, prefix)
  }

  /** The dog found is one that no later dog in the scan replaces. */
  lemma {:induction false} LastInRangeIsLast(len: Vec2 -> real, pos: Vec2, players: seq<Vec2>)
    requires LastInRange(len, pos, players).Some?
    ensures exists i :: 0 <= i < |players| && players[i] == LastInRange(len, pos, players).value
                        && (forall j :: i < j < |players| ==> !InRange(len, pos, players[j]))
  {
    var n := |players|;
    if InRange(len, pos, players[n - 1]) {
      assert players[n - 1] == LastInRange(len, pos, players).value;
    } else {
      var prefix := players[..n - 1];
      assert LastInRange(len, pos, players) == LastInRange(len, pos, prefix);
      LastInRangeIsLast(len, pos, prefix);
      var i :| 0 <= i < |prefix| && prefix[i] == LastInRange(len, pos, prefix).value
               && (forall j :: i < j < |prefix| ==> !InRange(len, pos, prefix[j]));
      forall j | i < j < n
        ensures !InRange(len, pos, players[j])
      {
        if j < n - 1 {
          assert players[j] == prefix[j];
        }
      }
      assert players[i] == prefix[i];
    }
  }

  /** The loop over the dogs that both wandering and evading sheep run. */
  method ScanPlayers(len: Vec2 -> real, pos: Vec2, players: seq<Vec2>) returns (found: Option<Vec2>)
    ensures found == LastInRange(len, pos, players)
  {
    found := None;
    var k := 0;
    while k < |players|
      invariant 0 <= k <= |players|
      invariant found == LastInRange(len, pos, players[..k])
    {
      assert players[..k + 1][..k] == players[..k];
      if InRange(len, pos, players[k]) {
        found := Some(players[k]);
      }
      k := k + 1;
    }
    assert players[..k] == players;
  }

  /** The danger an evading sheep measures against this frame: the last dog in range, or the one it stored. */
  function RefreshedDanger(len: Vec2 -> real, pos: Vec2, players: seq<Vec2>, stored: Vec2): Vec2
  {
    match LastInRange(len, pos, players)
    case Some(p) => p
    case None => stored
  }

  /** The state `sheep_state_update` leaves; `wait` is the wait drawn if the sheep calms down. */
  function NextState(s: SheepState, len: Vec2 -> real, pos: Vec2, players: seq<Vec2>, wait: real): SheepState
  {
    match s
    case Wander(_) =>
      (match LastInRange(len, pos, players)
       case Some(p) => Evading(p)
       case None => s)
    case Evading(d) =>
      if len(pos.Sub(RefreshedDanger(len, pos, players, d))) >= SHEEP_INTERACT_RANGE then Wander(Timer(0.0, wait))
      else s
    case Spooked(d) =>
      if len(pos.Sub(d)) >= SHEEP_INTERACT_RANGE * 2.0 then Wander(Timer(0.0, wait)) else s
    case BeingCounted => s
    case BeingAbducted => s
  }

  /** A wandering sheep starts evading exactly when some dog is in range, and then evades the last such dog. */
  lemma WanderToEvading(s: SheepState, len: Vec2 -> real, pos: Vec2, players: seq<Vec2>, wait: real)
    requires s.Wander?
    ensures NextState(s, len, pos, players, wait).Evading? <==>
      exists i :: 0 <= i < |players| && InRange(len, pos, players[i])
    ensures !NextState(s, len, pos, players, wait).Evading? ==> NextState(s, len, pos, players, wait) == s
    ensures NextState(s, len, pos, players, wait).Evading? ==>
      exists i :: 0 <= i < |players| && NextState(s, len, pos, players, wait).danger == players[i]
        && InRange(len, pos, players[i]) && (forall j :: i < j < |players| ==> !InRange(len, pos, players[j]))
  {
    if LastInRange(len, pos, players).Some? {
      LastInRangeIsLast(len, pos, players);
    }
  }

  /**
   * An evading sheep calms down, with a fresh wait, exactly when the refreshed
   * danger is at least five away; otherwise it keeps evading the danger it
   * stored when it started, since the refreshed one is not written back.
   */
  lemma EvadingThreshold(d: Vec2, len: Vec2 -> real, pos: Vec2, players: seq<Vec2>, wait: real)
    ensures var r := NextState(Evading(d), len, pos, players, wait);
      (r.Wander? <==> len(pos.Sub(RefreshedDanger(len, pos, players, d))) >= SHEEP_INTERACT_RANGE)
      && (r.Wander? ==> r.timer == Timer(0.0, wait))
      && (!r.Wander? ==> r == Evading(d))
  {
  }

  /** A spooked sheep calms down, with a fresh wait, exactly at ten units from the bark. */
  lemma SpookedThreshold(d: Vec2, len: Vec2 -> real, pos: Vec2, players: seq<Vec2>, wait: real)
    ensures var r := NextState(Spooked(d), len, pos, players, wait);
      (r.Wander? <==> len(pos.Sub(d)) >= 10.0)
      && (r.Wander? ==> r.timer == Timer(0.0, wait))
      && (!r.Wander? ==> r == Spooked(d))
  {
  }

  /** Sheep being counted or abducted keep their state through the update. */
  lemma CountedAndAbductedStay(s: SheepState, len: Vec2 -> real, pos: Vec2, players: seq<Vec2>, wait: real)
    requires s.BeingCounted? || s.BeingAbducted?
    ensures NextState(s, len, pos, players, wait) == s
  {
  }

  /** How far a sheep at `pos` gets from `pos` by aiming at `pos + dir` inside the bounds. */
  function Score(b: LevelBounds, pos: Vec2, dir: Vec2): real
    requires b.WellFormed()
  {
    DistSq(b.ClampToBounds(pos.Add(dir)), pos)
  }

  /** The directions tried, in order: away from the danger, its two perpendiculars, towards the danger. */
  function Candidates(preferred: Vec2): seq<Vec2>
  {
    [preferred, preferred.Perp(), preferred.Perp().Neg(), preferred.Neg()]
  }

  /** Candidate `i` scores highest, and strictly higher than every candidate before it. */
  predicate FirstBest(b: LevelBounds, pos: Vec2, cands: seq<Vec2>, i: nat)
    requires b.WellFormed()
  {
    i < |cands|
    && (forall j :: 0 <= j < |cands| ==> Score(b, pos, cands[j]) <= Score(b, pos, cands[i]))
    && (forall j :: 0 <= j < i ==> Score(b, pos, cands[j]) < Score(b, pos, cands[i]))
  }

  /** The scan over the remaining candidates: a later one replaces the best only if it scores strictly more. */
  function BestFrom(b: LevelBounds, pos: Vec2, cands: seq<Vec2>, k: nat, best: nat): (r: nat)
    requires b.WellFormed() && best < k <= |cands|
    requires forall j :: 0 <= j < k ==> Score(b, pos, cands[j]) <= Score(b, pos, cands[best])
    requires forall j :: 0 <= j < best ==> Score(b, pos, cands[j]) < Score(b, pos, cands[best])
    ensures FirstBest(b, pos, cands, r)
    decreases |cands| - k
  {
    if k == |cands| then best
    else if Score(b, pos, cands[k]) > Score(b, pos, cands[best]) then BestFrom(b, pos, cands, k + 1, k)
    else BestFrom(b, pos, cands, k + 1, best)
  }

  /**
   * `pick_evasion_dir`: the preferred direction if the bounds do not cut it
   * short, otherwise the candidate that gets the sheep furthest, the earliest
   * one on a tie.
   */
  function PickEvasionDir(b: LevelBounds, pos: Vec2, preferred: Vec2): (dir: Vec2)
    requires b.WellFormed()
    ensures dir in Candidates(preferred)
    ensures b.ClampToBounds(pos.Add(preferred)) == pos.Add(preferred) ==> dir == preferred
    ensures b.ClampToBounds(pos.Add(preferred)) != pos.Add(preferred) ==>
      exists i: nat :: FirstBest(b, pos, Candidates(preferred), i) && dir == Candidates(preferred)[i]
  {
    var cands := Candidates(preferred);
    if b.ClampToBounds(pos.Add(preferred)) == pos.Add(preferred) then preferred
    else
      var i := BestFrom(b, pos, cands, 1, 0);
      assert FirstBest(b, pos, cands, i);
      cands[i]
  }

  /** The chosen direction gets the sheep at least as far as the preferred one would. */
  lemma EvasionNeverWorse(b: LevelBounds, pos: Vec2, preferred: Vec2)
    requires b.WellFormed()
    ensures Score(b, pos, PickEvasionDir(b, pos, preferred)) >= Score(b, pos, preferred)
  {
    var cands := Candidates(preferred);
    if b.ClampToBounds(pos.Add(preferred)) != pos.Add(preferred) {
      var i := BestFrom(b, pos, cands, 1, 0);
      assert PickEvasionDir(b, pos, preferred) == cands[i];
      assert cands[0] == preferred;
    }
  }

  /** `apply_movement(dir * dt * step_distance)` on the controller. */
  function Pushed(c: HopState, dir: Vec2, dt: real, step: real): HopState
  {
    c.(intent := c.intent.Add(dir.Scale(dt).Scale(step).Scale(c.moveSpeedMult)))
  }

  /** The evading branch: away from the refreshed danger, turned aside by the bounds, at the default speed. */
  function SteerEvading(c: HopState, d: Vec2, t: SheepTuning, len: Vec2 -> real, pos: Vec2,
                        players: seq<Vec2>, bounds: LevelBounds, dt: real): HopState
    requires bounds.WellFormed()
  {
    var danger := RefreshedDanger(len, pos, players, d);
    if len(pos.Sub(danger)) >= SHEEP_INTERACT_RANGE then c
    else
      var dir := PickEvasionDir(bounds, pos, NormalizeOr(len, pos.Sub(danger), UNIT_X));
      Pushed(c.(moveSpeedMult := t.defaultSpeedMult), dir, dt, t.stepDistance)
  }

  /** The spooked branch: straight away from the bark at the spooked speed. */
  function SteerSpooked(c: HopState, d: Vec2, t: SheepTuning, len: Vec2 -> real, pos: Vec2, dt: real): HopState
  {
    if len(pos.Sub(d)) >= SHEEP_INTERACT_RANGE * 2.0 then c
    else Pushed(c.(moveSpeedMult := t.spookedSpeedMult), NormalizeOr(len, pos.Sub(d), UNIT_X), dt, t.stepDistance)
  }

  /** The counted branch: towards the goal, hopping and moving at 0.8. */
  function SteerCounted(c: HopState, t: SheepTuning, len: Vec2 -> real, pos: Vec2, goal: Vec2, dt: real): HopState
  {
    Pushed(c.(hopSpeedMult := 0.8, moveSpeedMult := 0.8), NormalizeOr(len, goal.Sub(pos), UNIT_X), dt, t.stepDistance)
  }

  /** What `sheep_state_update` does to a sheep's controller, from the sheep's state before the update. */
  function Steered(c: HopState, s: SheepState, t: SheepTuning, len: Vec2 -> real, pos: Vec2,
                   players: seq<Vec2>, goal: Vec2, bounds: LevelBounds, dt: real): (r: HopState)
    requires bounds.WellFormed()
    ensures r.timer == c.timer && r.airborne == c.airborne
    ensures r.currentHopSrc == c.currentHopSrc && r.currentHopDest == c.currentHopDest
    ensures r.timeBetweenHops == c.timeBetweenHops && r.hopTimeLength == c.hopTimeLength
    ensures !s.BeingCounted? ==> r.hopSpeedMult == c.hopSpeedMult
  {
    match s
    case Wander(_) => c.(moveSpeedMult := t.defaultSpeedMult)
    case Evading(d) => SteerEvading(c, d, t, len, pos, players, bounds, dt)
    case Spooked(d) => SteerSpooked(c, d, t, len, pos, dt)
    case BeingCounted => SteerCounted(c, t, len, pos, goal, dt)
    case BeingAbducted => c.(intent := pos)
  }

  /** The update keeps a sane controller sane. */
  lemma SteeredKeepsSane(c: HopState, s: SheepState, t: SheepTuning, len: Vec2 -> real, pos: Vec2,
                         players: seq<Vec2>, goal: Vec2, bounds: LevelBounds, dt: real)
    requires bounds.WellFormed() && c.Sane()
    ensures Steered(c, s, t, len, pos, players, goal, bounds, dt).Sane()
  {
  }

  /** An evading sheep still near its danger steps along one of the four evasion candidates at its default speed. */
  lemma EvadingStepsAlongCandidate(c: HopState, d: Vec2, t: SheepTuning, len: Vec2 -> real, pos: Vec2,
                                   players: seq<Vec2>, goal: Vec2, bounds: LevelBounds, dt: real)
    requires bounds.WellFormed()
    requires len(pos.Sub(RefreshedDanger(len, pos, players, d))) < SHEEP_INTERACT_RANGE
    ensures var r := Steered(c, Evading(d), t, len, pos, players, goal, bounds, dt);
      r.moveSpeedMult == t.defaultSpeedMult
      && (exists dir :: dir in Candidates(NormalizeOr(len, pos.Sub(RefreshedDanger(len, pos, players, d)), UNIT_X))
            && r.intent == c.intent.Add(dir.Scale(dt).Scale(t.stepDistance).Scale(t.defaultSpeedMult)))
  {
    var preferred := NormalizeOr(len, pos.Sub(RefreshedDanger(len, pos, players, d)), UNIT_X);
    var dir := PickEvasionDir(bounds, pos, preferred);
    assert Steered(c, Evading(d), t, len, pos, players, goal, bounds, dt).intent
      == c.intent.Add(dir.Scale(dt).Scale(t.stepDistance).Scale(t.defaultSpeedMult));
  }

  /**
   * A sheep being counted, anywhere but on the goal, hops at 0.8 speed
   * towards it: its step is a positive multiple of the way to the goal.
   */
  lemma CountedHeadsToGoal(c: HopState, t: SheepTuning, len: Vec2 -> real, pos: Vec2, goal: Vec2, dt: real)
    requires len(goal.Sub(pos)) > 0.0
    ensures var r := SteerCounted(c, t, len, pos, goal, dt);
      r.hopSpeedMult == 0.8 && r.moveSpeedMult == 0.8
      && exists k: real :: k > 0.0 && r.intent == c.intent.Add(goal.Sub(pos).Scale(k).Scale(dt).Scale(t.stepDistance).Scale(0.8))
  {
    var k := 1.0 / len(goal.Sub(pos));
    assert NormalizeOr(len, goal.Sub(pos), UNIT_X) == goal.Sub(pos).Scale(k);
    StepAlong(c.(hopSpeedMult := 0.8, moveSpeedMult := 0.8), NormalizeOr(len, goal.Sub(pos), UNIT_X),
              goal.Sub(pos), k, dt, t.stepDistance);
  }

  lemma StepAlong(c: HopState, u: Vec2, v: Vec2, k: real, dt: real, step: real)
    requires u == v.Scale(k)
    ensures Pushed(c, u, dt, step).intent == c.intent.Add(v.Scale(k).Scale(dt).Scale(step).Scale(c.moveSpeedMult))
  {
  }

  /** An abducted sheep aims at where it stands, so it never starts a hop. */
  lemma AbductedStaysPut(c: HopState, t: SheepTuning, len: Vec2 -> real, pos: Vec2,
                         players: seq<Vec2>, goal: Vec2, bounds: LevelBounds, dt: real)
    requires bounds.WellFormed()
    ensures Steered(c, BeingAbducted, t, len, pos, players, goal, bounds, dt) == c.(intent := pos)
    ensures DistSq(Steered(c, BeingAbducted, t, len, pos, players, goal, bounds, dt).intent, pos) <= HOP_THRESHOLD_SQ
  {
  }

  /** The evading branch of `sheep_state_update`. */
  method UpdateEvading(sheep: Sheep, c: HopMovementController, d: Vec2, len: Vec2 -> real, pos: Vec2,
                       players: seq<Vec2>, bounds: LevelBounds, dt: real, wait: real)
    requires bounds.WellFormed()
    requires sheep.state == Evading(d) && sheep.minWait <= wait < sheep.maxWait
    modifies sheep, c
    ensures sheep.state == NextState(Evading(d), len, pos, players, wait)
    ensures c.Model() == SteerEvading(old(c.Model()), d, sheep.Tuning(), len, pos, players, bounds, dt)
  {
    var danger := d;
    var found := ScanPlayers(len, pos, players);
    if found.Some? {
      danger := found.value;
    }
    if len(pos.Sub(danger)) >= SHEEP_INTERACT_RANGE {
      sheep.state := Wander(FromSeconds(0.5));
      sheep.ResetTimer(wait);
    } else {
      var preferred := NormalizeOr(len, pos.Sub(danger), UNIT_X);
      var dir := PickEvasionDir(bounds, pos, preferred);
      c.moveSpeedMult := sheep.defaultSpeedMult;
      c.ApplyMovement(dir.Scale(dt).Scale(sheep.stepDistance));
    }
  }

  /** The spooked branch of `sheep_state_update`. */
  method UpdateSpooked(sheep: Sheep, c: HopMovementController, d: Vec2, len: Vec2 -> real, pos: Vec2,
                       players: seq<Vec2>, dt: real, wait: real)
    requires sheep.state == Spooked(d) && sheep.minWait <= wait < sheep.maxWait
    modifies sheep, c
    ensures sheep.state == NextState(Spooked(d), len, pos, players, wait)
    ensures c.Model() == SteerSpooked(old(c.Model()), d, sheep.Tuning(), len, pos, dt)
  {
    if len(pos.Sub(d)) >= SHEEP_INTERACT_RANGE * 2.0 {
      sheep.state := Wander(FromSeconds(0.5));
      sheep.ResetTimer(wait);
    } else {
      var dir := NormalizeOr(len, pos.Sub(d), UNIT_X);
      c.moveSpeedMult := sheep.spookedSpeedMult;
      c.ApplyMovement(dir.Scale(dt).Scale(sheep.stepDistance));
    }
  }

  /** The counted branch of `sheep_state_update`. */
  method UpdateCounted(sheep: Sheep, c: HopMovementController, len: Vec2 -> real, pos: Vec2, goal: Vec2, dt: real)
    modifies c
    ensures c.Model() == SteerCounted(old(c.Model()), sheep.Tuning(), len, pos, goal, dt)
  {
    var dir := NormalizeOr(len, goal.Sub(pos), UNIT_X);
    c.hopSpeedMult := 0.8;
    c.moveSpeedMult := 0.8;
    c.ApplyMovement(dir.Scale(dt).Scale(sheep.stepDistance));
  }

  /** `sheep_state_update` for one sheep; `wait` is drawn if it calms down. */
  method UpdateSheep(sheep: Sheep, c: HopMovementController, len: Vec2 -> real, pos: Vec2,
                     players: seq<Vec2>, goal: Vec2, bounds: LevelBounds, dt: real, wait: real)
    requires bounds.WellFormed()
    requires sheep.minWait <= wait < sheep.maxWait
    modifies sheep, c
    ensures sheep.state == NextState(old(sheep.state), len, pos, players, wait)
    ensures c.Model() == Steered(old(c.Model()), old(sheep.state), sheep.Tuning(), len, pos, players, goal, bounds, dt)
  {
    match sheep.state {
      case Wander(_) =>
        c.moveSpeedMult := sheep.defaultSpeedMult;
        var found := ScanPlayers(len, pos, players);
        if found.Some? {
          sheep.state := Evading(found.value);
        }
      case Evading(d) =>
        UpdateEvading(sheep, c, d, len, pos, players, bounds, dt, wait);
      case Spooked(d) =>
        UpdateSpooked(sheep, c, d, len, pos, players, dt, wait);
      case BeingCounted =>
        UpdateCounted(sheep, c, len, pos, goal, dt);
      case BeingAbducted =>
        c.intent := pos;
    }
  }

  /** The states of the flock, as values. */
  function StatesOf(flock: seq<Sheep>): (r: seq<SheepState>)
    reads set i | 0 <= i < |flock| :: flock[i]
    ensures |r| == |flock| && forall i :: 0 <= i < |flock| ==> r[i] == flock[i].state
  {
    seq(|flock|, i reads set j | 0 <= j < |flock| :: flock[j] requires 0 <= i < |flock| => flock[i].state)
  }

  /** The controllers' states, as values. */
  function ModelsOf(controllers: seq<HopMovementController>): (r: seq<HopState>)
    reads set i | 0 <= i < |controllers| :: controllers[i]
    ensures |r| == |controllers| && forall i :: 0 <= i < |controllers| ==> r[i] == controllers[i].Model()
  {
    seq(|controllers|, i reads set j | 0 <= j < |controllers| :: controllers[j] requires 0 <= i < |controllers| => controllers[i].Model())
  }

  /** `sheep_state_update` over the flock; `waits[i]` is the wait sheep `i` draws if it calms down. */
  /** `Steered` applied to every sheep of the flock. */
  function SteeredAll(models: seq<HopState>, states: seq<SheepState>, tunings: seq<SheepTuning>, len: Vec2 -> real,
                      positions: seq<Vec2>, players: seq<Vec2>, goal: Vec2, bounds: LevelBounds, dt: real): (r: seq<HopState>)
    requires bounds.WellFormed()
    requires |states| == |models| && |tunings| == |models| && |positions| == |models|
    ensures |r| == |models|
    ensures forall i :: 0 <= i < |models| ==>
      r[i] == Steered(models[i], states[i], tunings[i], len, positions[i], players, goal, bounds, dt)
  {
    seq(|models|, i requires 0 <= i < |models| =>
      Steered(models[i], states[i], tunings[i], len, positions[i], players, goal, bounds, dt))
  }

  method SheepStateUpdate(flock: seq<Sheep>, controllers: seq<HopMovementController>, positions: seq<Vec2>,
                          players: seq<Vec2>, goal: Vec2, bounds: LevelBounds, dt: real,
                          len: Vec2 -> real, waits: seq<real>)
    requires |controllers| == |flock| && |positions| == |flock| && |waits| == |flock|
    requires bounds.WellFormed()
    requires forall i, j :: 0 <= i < j < |flock| ==> flock[i] != flock[j]
    requires forall i, j :: 0 <= i < j < |controllers| ==> controllers[i] != controllers[j]
    requires forall i :: 0 <= i < |flock| ==> flock[i].minWait <= waits[i] < flock[i].maxWait
    modifies set i | 0 <= i < |flock| :: flock[i]
    modifies set i | 0 <= i < |controllers| :: controllers[i]
    ensures forall i :: 0 <= i < |flock| ==>
      flock[i].state == NextState(old(flock[i].state), len, positions[i], players, waits[i])
    ensures forall i :: 0 <= i < |flock| ==>
      controllers[i].Model() == Steered(old(controllers[i].Model()), old(flock[i].state), flock[i].Tuning(),
                                        len, positions[i], players, goal, bounds, dt)
  {
    ghost var states := StatesOf(flock);
    ghost var models := ModelsOf(controllers);
    ghost var nextStates := seq(|flock|, i requires 0 <= i < |flock| => NextState(states[i], len, positions[i], players, waits[i]));
    ghost var tunings := seq(|flock|, i requires 0 <= i < |flock| => flock[i].Tuning());
    ghost var nextModels := SteeredAll(models, states, tunings, len, positions, players, goal, bounds, dt);
    var k := 0;
    while k < |flock|
      invariant 0 <= k <= |flock|
      invariant forall i :: 0 <= i < k ==> flock[i].state == nextStates[i]
      invariant forall i :: 0 <= i < k ==> controllers[i].Model() == nextModels[i]
      invariant forall i :: k <= i < |flock| ==> flock[i].state == states[i]
      invariant forall i :: k <= i < |flock| ==> controllers[i].Model() == models[i]
    {
      UpdateSheepAt(flock, controllers, k, positions, players, goal, bounds, dt, len, waits);
      k := k + 1;
    }
  }

  /** One step of `sheep_state_update`: sheep `k` and its controller change, every other sheep and controller stays. */
  method UpdateSheepAt(flock: seq<Sheep>, controllers: seq<HopMovementController>, k: nat, positions: seq<Vec2>,
                       players: seq<Vec2>, goal: Vec2, bounds: LevelBounds, dt: real,
                       len: Vec2 -> real, waits: seq<real>)
    requires k < |flock| && |controllers| == |flock| && |positions| == |flock| && |waits| == |flock|
    requires bounds.WellFormed()
    requires forall i :: 0 <= i < |flock| && i != k ==> flock[i] != flock[k]
    requires forall i :: 0 <= i < |flock| && i != k ==> controllers[i] != controllers[k]
    requires flock[k].minWait <= waits[k] < flock[k].maxWait
    modifies flock[k], controllers[k]
    ensures flock[k].state == NextState(old(flock[k].state), len, positions[k], players, waits[k])
    ensures controllers[k].Model() == Steered(old(controllers[k].Model()), old(flock[k].state), flock[k].Tuning(),
                                              len, positions[k], players, goal, bounds, dt)
    ensures forall i :: 0 <= i < |flock| && i != k ==>
      flock[i].state == old(flock[i].state) && controllers[i].Model() == old(controllers[i].Model())
  {
    UpdateSheep(flock[k], controllers[k], len, positions[k], players, goal, bounds, dt, waits[k]);
  }

  /** `sheep_wander` on the state: tick the wander timer, and start a fresh wait the tick it runs out. */
  function Wandered(s: SheepState, dt: real, wait: real): SheepState
    requires dt >= 0.0
  {
    match s
    case Wander(t) => if t.JustFinished(dt) then Wander(Timer(0.0, wait)) else Wander(t.Tick(dt))
    case _ => s
  }

  /** `sheep_wander` on the controller: the tick the timer runs out, aim one step along `heading`. */
  function WanderIntent(c: HopState, s: SheepState, pos: Vec2, dt: real, heading: Vec2, step: real): HopState
    requires dt >= 0.0
  {
    if s.Wander? && s.timer.JustFinished(dt) then c.(intent := pos.Add(heading.Scale(step))) else c
  }

  /** A wandering sheep's timer never rests finished: it restarts on the tick it runs out. */
  lemma WanderTimerNeverRestsFinished(t: Timer, dt: real, wait: real)
    requires dt >= 0.0 && t.Valid() && !t.Finished() && wait >= MIN_WAIT
    ensures Wandered(Wander(t), dt, wait).Wander?
    ensures Wandered(Wander(t), dt, wait).timer.Valid()
    ensures !Wandered(Wander(t), dt, wait).timer.Finished()
  {
  }

  /**
   * Only a wander timer running out moves the intent, and then to one step
   * along the heading from where the sheep stands; for a unit heading, as
   * the drawn angle gives, the aim is exactly `step` away.
   */
  lemma WanderAimsOneStep(c: HopState, s: SheepState, pos: Vec2, dt: real, heading: Vec2, step: real)
    requires dt >= 0.0
    ensures WanderIntent(c, s, pos, dt, heading, step) != c ==>
      s.Wander? && s.timer.JustFinished(dt) && WanderIntent(c, s, pos, dt, heading, step).intent.Sub(pos) == heading.Scale(step)
    ensures WanderIntent(c, s, pos, dt, heading, step) != c && NormSq(heading) == 1.0 ==>
      NormSq(WanderIntent(c, s, pos, dt, heading, step).intent.Sub(pos)) == step * step
  {
    var r := WanderIntent(c, s, pos, dt, heading, step);
    if r != c {
      assert r.intent == pos.Add(heading.Scale(step));
      assert pos.Add(heading.Scale(step)).Sub(pos) == heading.Scale(step);
      ScaledNormSq(heading, step);
    }
  }

  lemma ScaledNormSq(v: Vec2, k: real)
    ensures NormSq(v.Scale(k)) == k * k * NormSq(v)
  {
    assert (k * v.x) * (k * v.x) == k * k * (v.x * v.x);
    assert (k * v.y) * (k * v.y) == k * k * (v.y * v.y);
  }

  /**
   * `sheep_wander` over the flock. `headings[i]` stands for the unit vector
   * of the angle sheep `i` draws and `waits[i]` for its next wait; both are
   * used only by sheep whose timer runs out this tick. The headings are not
   * required to have unit length; `WanderAimsOneStep` gives the step length
   * when they do.
   */
  method SheepWander(flock: seq<Sheep>, controllers: seq<HopMovementController>, positions: seq<Vec2>,
                     dt: real, headings: seq<Vec2>, waits: seq<real>)
    requires |controllers| == |flock| && |positions| == |flock| && |headings| == |flock| && |waits| == |flock|
    requires dt >= 0.0
    requires forall i, j :: 0 <= i < j < |flock| ==> flock[i] != flock[j]
    requires forall i, j :: 0 <= i < j < |controllers| ==> controllers[i] != controllers[j]
    requires forall i :: 0 <= i < |flock| ==> flock[i].minWait <= waits[i] < flock[i].maxWait
    modifies set i | 0 <= i < |flock| :: flock[i]
    modifies set i | 0 <= i < |controllers| :: controllers[i]
    ensures forall i :: 0 <= i < |flock| ==> flock[i].state == Wandered(old(flock[i].state), dt, waits[i])
    ensures forall i :: 0 <= i < |flock| ==>
      controllers[i].Model() == WanderIntent(old(controllers[i].Model()), old(flock[i].state), positions[i],
                                             dt, headings[i], flock[i].stepDistance)
  {
    ghost var states := StatesOf(flock);
    ghost var models := ModelsOf(controllers);
    ghost var nextStates := seq(|flock|, i requires 0 <= i < |flock| => Wandered(states[i], dt, waits[i]));
    ghost var nextModels := seq(|flock|, i requires 0 <= i < |flock| =>
      WanderIntent(models[i], states[i], positions[i], dt, headings[i], flock[i].stepDistance));
    var k := 0;
    while k < |flock|
      invariant 0 <= k <= |flock|
      invariant forall i :: 0 <= i < k ==> flock[i].state == nextStates[i]
      invariant forall i :: 0 <= i < k ==> controllers[i].Model() == nextModels[i]
      invariant forall i :: k <= i < |flock| ==> flock[i].state == states[i]
      invariant forall i :: k <= i < |flock| ==> controllers[i].Model() == models[i]
    {
      WanderOne(flock[k], controllers[k], positions[k], dt, headings[k], waits[k]);
      k := k + 1;
    }
  }

  /** `sheep_wander` on one sheep and its controller. */
  method WanderOne(sheep: Sheep, c: HopMovementController, pos: Vec2, dt: real, heading: Vec2, wait: real)
    requires dt >= 0.0
    requires sheep.minWait <= wait < sheep.maxWait
    modifies sheep, c
    ensures sheep.state == Wandered(old(sheep.state), dt, wait)
    ensures c.Model() == WanderIntent(old(c.Model()), old(sheep.state), pos, dt, heading, sheep.stepDistance)
  {
    if sheep.state.Wander? {
      var timer := sheep.state.timer;
      sheep.state := Wander(timer.Tick(dt));
      if timer.JustFinished(dt) {
        c.intent := pos.Add(heading.Scale(sheep.stepDistance));
        sheep.ResetTimer(wait);
      }
    }
  }

  /** `f32::min`. */
  function Min(a: real, b: real): real
  {
    if a < b then a else b
  }

  /** The height of an abducted sheep after rising for `dt`, capped at the UFO's height. */
  function Ascended(y: real, dt: real): (r: real)
    ensures r <= UFO_HEIGHT
    ensures r == y + ABDUCTION_ASCENT_SPEED * dt || r == UFO_HEIGHT
  {
    Min(y + ABDUCTION_ASCENT_SPEED * dt, UFO_HEIGHT)
  }

  /** A sheep below the UFO rises, never falls, and never passes the UFO. */
  lemma AscentMonotone(y: real, dt: real)
    requires y <= UFO_HEIGHT && dt >= 0.0
    ensures y <= Ascended(y, dt) <= UFO_HEIGHT
  {
  }

  /** Once the ceiling is reached, a further tick keeps the sheep there. */
  lemma AscentSaturates(y: real, dt: real)
    requires y == UFO_HEIGHT && dt >= 0.0
    ensures Ascended(y, dt) == UFO_HEIGHT
  {
  }

  /**
   * `sheep_abduction_update`: each abducted sheep rises; `lifted` holds the
   * new translations and `kept[i]` is false for a sheep that reached two
   * units below the UFO and is despawned. Other sheep are untouched and kept.
   */
  method SheepAbductionUpdate(flock: seq<Sheep>, translations: seq<Vec3>, dt: real)
    returns (lifted: seq<Vec3>, kept: seq<bool>)
    requires |translations| == |flock|
    ensures |lifted| == |flock| && |kept| == |flock|
    ensures forall i :: 0 <= i < |flock| && !flock[i].state.BeingAbducted? ==> lifted[i] == translations[i] && kept[i]
    ensures forall i :: 0 <= i < |flock| && flock[i].state.BeingAbducted? ==>
      lifted[i] == translations[i].(y := Ascended(translations[i].y, dt))
      && (kept[i] <==> lifted[i].y < UFO_HEIGHT - 2.0)
  {
    lifted := [];
    kept := [];
    var k := 0;
    while k < |flock|
      invariant 0 <= k <= |flock| && |lifted| == k && |kept| == k
      invariant forall i :: 0 <= i < k && !flock[i].state.BeingAbducted? ==> lifted[i] == translations[i] && kept[i]
      invariant forall i :: 0 <= i < k && flock[i].state.BeingAbducted? ==>
        lifted[i] == translations[i].(y := Ascended(translations[i].y, dt))
        && (kept[i] <==> lifted[i].y < UFO_HEIGHT - 2.0)
    {
      var tr := translations[k];
      if !flock[k].IsBeingAbducted() {
        lifted := lifted + [tr];
        kept := kept + [true];
      } else {
        tr := tr.(y := Min(tr.y + ABDUCTION_ASCENT_SPEED * dt, UFO_HEIGHT));
        lifted := lifted + [tr];
        kept := kept + [!(tr.y >= UFO_HEIGHT - 2.0)];
      }
      k := k + 1;
    }
  }

  /** The state `sheep_goal_check` leaves: near the goal, a free sheep is drawn in to be counted. */
  function GoalState(s: SheepState, pos: Vec2, goal: Vec2): SheepState
  {
    match s
    case BeingAbducted => s
    case BeingCounted => s
    case _ => if DistSq(pos, goal) < GOAL_RADIUS * GOAL_RADIUS then BeingCounted else s
  }

  /** Whether `sheep_goal_check` scores the sheep, and despawns it. */
  predicate Scores(s: SheepState, pos: Vec2, goal: Vec2)
  {
    s.BeingCounted? && DistSq(pos, goal) < SCORE_DISTANCE_SQ
  }

  /**
   * The goal check on one sheep: abducted sheep are skipped, only a sheep
   * already being counted can score, and any other sheep inside the goal
   * radius starts being counted.
   */
  lemma GoalCheckTransitions(s: SheepState, pos: Vec2, goal: Vec2)
    ensures s.BeingAbducted? ==> GoalState(s, pos, goal) == s && !Scores(s, pos, goal)
    ensures Scores(s, pos, goal) ==> s == BeingCounted
    ensures GoalState(s, pos, goal) != s <==>
      !s.BeingAbducted? && !s.BeingCounted? && DistSq(pos, goal) < 36.0
    ensures GoalState(s, pos, goal) != s ==> GoalState(s, pos, goal) == BeingCounted
  {
  }

  /** A sheep is never counted and scored in the same check: scoring takes a second frame. */
  lemma ScoringTakesTwoChecks(s: SheepState, pos: Vec2, goal: Vec2, pos2: Vec2)
    requires !s.BeingCounted?
    ensures !Scores(s, pos, goal)
    ensures Scores(GoalState(s, pos, goal), pos2, goal) ==> DistSq(pos, goal) < 36.0 && DistSq(pos2, goal) < 1.5
  {
  }

  /**
   * `sheep_goal_check` over the flock: `kept[i]` is false for a sheep that
   * scores and is despawned, and the points rise by one per such sheep.
   */
  method SheepGoalCheck(flock: seq<Sheep>, positions: seq<Vec2>, goal: Vec2, game: GameState)
    returns (kept: seq<bool>)
    requires |positions| == |flock|
    requires forall i, j :: 0 <= i < j < |flock| ==> flock[i] != flock[j]
    modifies set i | 0 <= i < |flock| :: flock[i]
    modifies game
    ensures |kept| == |flock|
    ensures forall i :: 0 <= i < |flock| ==> flock[i].state == GoalState(old(flock[i].state), positions[i], goal)
    ensures forall i :: 0 <= i < |flock| ==> (kept[i] <==> !Scores(old(flock[i].state), positions[i], goal))
    ensures game.Fields() == old(game.Fields()).(points := old(game.points) + CountFalse(kept))
  {
    ghost var states := StatesOf(flock);
    ghost var nextStates := seq(|flock|, i requires 0 <= i < |flock| => GoalState(states[i], positions[i], goal));
    ghost var keeps := seq(|flock|, i requires 0 <= i < |flock| => !Scores(states[i], positions[i], goal));
    kept := [];
    var k := 0;
    while k < |flock|
      invariant 0 <= k <= |flock| && kept == keeps[..k]
      invariant forall i :: 0 <= i < k ==> flock[i].state == nextStates[i]
      invariant forall i :: k <= i < |flock| ==> flock[i].state == states[i]
      invariant game.Fields() == old(game.Fields()).(points := old(game.points) + CountFalse(kept))
    {
      var scores := GoalCheckAt(flock, k, positions[k], goal);
      if scores {
        game.points := game.points + 1;
      }
      assert keeps[..k + 1] == keeps[..k] + [!scores];
      kept := kept + [!scores];
      k := k + 1;
    }
    assert keeps[..|flock|] == keeps;
  }

  /** The goal check on sheep `k`; `scores` tells whether it is counted and despawned. Every other sheep stays. */
  method GoalCheckAt(flock: seq<Sheep>, k: nat, pos: Vec2, goal: Vec2) returns (scores: bool)
    requires k < |flock|
    requires forall i :: 0 <= i < |flock| && i != k ==> flock[i] != flock[k]
    modifies flock[k]
    ensures flock[k].state == GoalState(old(flock[k].state), pos, goal)
    ensures scores == Scores(old(flock[k].state), pos, goal)
    ensures forall i :: 0 <= i < |flock| && i != k ==> flock[i].state == old(flock[i].state)
  {
    var sheep := flock[k];
    match sheep.state {
      case BeingAbducted =>
        scores := false;
      case BeingCounted =>
        scores := DistSq(pos, goal) < SCORE_DISTANCE_SQ;
      case _ =>
        if DistSq(pos, goal) < GOAL_RADIUS * GOAL_RADIUS {
          sheep.state := BeingCounted;
        }
        scores := false;
    }
  }

  /** The points a goal check awards are exactly the sheep it removes from the flock. */
  lemma PointsMatchRemovedSheep(flock: seq<Sheep>, kept: seq<bool>)
    requires |kept| == |flock|
    ensures |Keep(flock, kept)| + CountFalse(kept) == |flock|
  {
  }

  /** The movement tuning `sheep()` derives from the active modifiers. */
  datatype SpawnParameters = SpawnParameters(
    moveSpeedMult: real,
    hopSpeedMult: real,
    timeBetweenHops: real,
    hopTimeLength: real,
    jumpHeightMult: real)

  /** The parameter block of `sheep()` in closed form, under moon gravity `moon` and hyper sheep `hyper`. */
  function SpawnTuning(moon: bool, hyper: bool): SpawnParameters
  {
    SpawnParameters(if hyper then 1.3 else 1.0,
                    (if moon then 0.8 else 1.0) * (if hyper then 1.3 else 1.0),
                    if hyper then 0.02 else 0.2,
                    if moon then 0.8 else 0.3,
                    if moon then 6.0 else 1.0)
  }

  /** The hop controller a sheep spawned with parameters `p` starts with. */
  function SpawnedHop(p: SpawnParameters): HopState
  {
    DEFAULT_HOP.(moveSpeedMult := p.moveSpeedMult, hopSpeedMult := p.hopSpeedMult,
                 timeBetweenHops := p.timeBetweenHops, hopTimeLength := p.hopTimeLength)
  }

  /**
   * The parameter block of `sheep()`: moon gravity slows and lengthens the
   * hops and raises them sixfold; hyper sheep hop and move 1.3 times faster
   * and wait a tenth as long between hops.
   */
  method SheepSpawnParameters(game: GameState) returns (p: SpawnParameters)
    ensures p == SpawnTuning(game.IsModifierActive(MoonGravity), game.IsModifierActive(HyperSheep))
    ensures p.moveSpeedMult == (if game.IsModifierActive(HyperSheep) then 1.3 else 1.0)
    ensures p.hopSpeedMult == (if game.IsModifierActive(MoonGravity) then 0.8 else 1.0)
                            * (if game.IsModifierActive(HyperSheep) then 1.3 else 1.0)
    ensures p.timeBetweenHops == (if game.IsModifierActive(HyperSheep) then 0.02 else 0.2)
    ensures p.hopTimeLength == (if game.IsModifierActive(MoonGravity) then 0.8 else 0.3)
    ensures p.jumpHeightMult == (if game.IsModifierActive(MoonGravity) then 6.0 else 1.0)
    ensures p.moveSpeedMult > 0.0 && p.hopSpeedMult > 0.0 && p.timeBetweenHops > 0.0 && p.hopTimeLength > 0.0
  {
    var moveSpeedMult := 1.0;
    var hopSpeedMult := 1.0;
    var timeBetweenHops := 0.2;
    var hopTimeLength := 0.3;
    var jumpHeightMult := 1.0;
    if game.IsModifierActive(MoonGravity) {
      hopSpeedMult := hopSpeedMult * 0.8;
      hopTimeLength := hopTimeLength + 0.5;
      jumpHeightMult := jumpHeightMult * 6.0;
    }
    if game.IsModifierActive(HyperSheep) {
      hopSpeedMult := hopSpeedMult * 1.3;
      moveSpeedMult := moveSpeedMult * 1.3;
      timeBetweenHops := timeBetweenHops * 0.1;
    }
    p := SpawnParameters(moveSpeedMult, hopSpeedMult, timeBetweenHops, hopTimeLength, jumpHeightMult);
  }

  /**
   * `sheep()`: a sheep tuned from the active modifiers, wandering on a fresh
   * wait, with its hop controller. The controller's own move speed stands for
   * the separate movement controller the sheep is given.
   */
  method SpawnSheep(game: GameState, wait: real) returns (sheep: Sheep, controller: HopMovementController, p: SpawnParameters)
    requires MIN_WAIT <= wait < MAX_WAIT
    ensures fresh(sheep) && fresh(controller)
    ensures sheep.state == Wander(Timer(0.0, wait))
    ensures sheep.defaultSpeedMult == p.moveSpeedMult
    ensures sheep.spookedSpeedMult == p.moveSpeedMult * 2.0 && sheep.stepDistance == p.moveSpeedMult * 2.0
    ensures p == SpawnTuning(game.IsModifierActive(MoonGravity), game.IsModifierActive(HyperSheep))
    ensures controller.Model() == SpawnedHop(p)
    ensures controller.Model().Sane()
  {
    p := SheepSpawnParameters(game);
    controller := new HopMovementController.Default();
    controller.moveSpeedMult := p.moveSpeedMult;
    controller.hopSpeedMult := p.hopSpeedMult;
    controller.timeBetweenHops := p.timeBetweenHops;
    controller.hopTimeLength := p.hopTimeLength;
    sheep := new Sheep.Tuned(wait, p.moveSpeedMult);
  }
}
