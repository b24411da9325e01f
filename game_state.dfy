/**
 * The run's shared state: flock size, coloured sheep, the round countdown,
 * points and target, money, the active modifiers (at most three carried from
 * round to round) and the charms held.
 */
module GameStates {
  import opened Wrappers
  import opened Vecs
  import opened Timers
  import opened Modifiers
  import opened Items

  /** The top-level screens the game's phases run under. */
  datatype Screen = Title | Gameplay

  /** The sub-states of the gameplay screen, `Herding` first. */
  datatype GamePhase = Herding | ModifierChoice | Shop

  /** Length of a round, in seconds. */
  const ROUND_SECONDS: real := 120.0

  /** How many modifiers a new round offers. */
  const MODIFIER_CHOICE_COUNT: nat := 2

  /** What `new_round` reports: the evicted modifier, if any, and the choices offered. */
  datatype NewRoundInfo = NewRoundInfo(removedModifier: Option<Modifier>, modifierChoices: seq<Modifier>)

  /** The modifiers kept by a new round: the oldest goes once more than two are active. */
  function AfterEviction(active: seq<Modifier>): (kept: seq<Modifier>)
    ensures |active| > 2 ==> |kept| == |active| - 1 && kept == active[1..]
    ensures |active| <= 2 ==> kept == active
  {
    if |active| > 2 then active[1..] else active
  }

  /** Every field of the run's state, as one value. */
  datatype GameFields = GameFields(
    sheepCount: nat,
    blueSheepCount: nat,
    redSheepCount: nat,
    countdown: Timer,
    points: nat,
    pointTarget: nat,
    activeModifiers: seq<Modifier>,
    money: nat,
    charms: seq<Charm>,
    maxCharms: nat,
    playerBarkRadius: real)

  /** The modifier a new round evicts. */
  function Evicted(active: seq<Modifier>): (removed: Option<Modifier>)
    ensures removed.Some? <==> |active| > 2
    ensures removed.Some? ==> removed.value == active[0] && active == [removed.value] + AfterEviction(active)
  {
    if |active| > 2 then Some(active[0]) else None
  }

  class GameState {
    var sheepCount: nat
    var blueSheepCount: nat
    var redSheepCount: nat
    var countdown: Timer
    var points: nat
    var pointTarget: nat
    var activeModifiers: seq<Modifier>
    var money: nat
    var charms: seq<Charm>
    var maxCharms: nat
    /** Bark radius that the bark-power boost raises; starts at the player's default of 8. */
    var playerBarkRadius: real

    /** `GameState::default`. */
    constructor Default()
      ensures sheepCount == 10 && blueSheepCount == 1 && redSheepCount == 1
      ensures countdown == FromSeconds(ROUND_SECONDS)
      ensures points == 0 && pointTarget == 10 && money == 0
      ensures activeModifiers == [] && charms == [] && maxCharms == 3
      ensures playerBarkRadius == 8.0
    {
      sheepCount := 10;
      blueSheepCount := 1;
      redSheepCount := 1;
      countdown := FromSeconds(ROUND_SECONDS);
      points := 0;
      pointTarget := 10;
      activeModifiers := [];
      money := 0;
      charms := [];
      maxCharms := 3;
      playerBarkRadius := 8.0;
    }

    /** The whole state as a value, so that a contract can say what changes and that nothing else does. */
    function Fields(): GameFields
      reads this
    {
      GameFields(sheepCount, blueSheepCount, redSheepCount, countdown, points, pointTarget,
                 activeModifiers, money, charms, maxCharms, playerBarkRadius)
    }

    predicate IsModifierActive(m: Modifier)
      reads this
    {
      Contains(activeModifiers, m)
    }

    predicate IsCharmActive(c: Charm)
      reads this
    {
      Contains(charms, c)
    }

    /** No charm slot left. */
    predicate CharmsFull()
      reads this
    {
      |charms| >= maxCharms
    }

    /**
     * `new_round`: rewind the countdown, clear the points, evict the oldest
     * modifier once more than two are active, then draw two choices among the
     * modifiers still inactive.
     */
    method NewRound(rolls: nat -> nat) returns (info: NewRoundInfo)
      modifies this
      ensures countdown == old(countdown).Reset() && points == 0
      ensures activeModifiers == AfterEviction(old(activeModifiers))
      ensures info.removedModifier == Evicted(old(activeModifiers))
      ensures |info.modifierChoices| <= MODIFIER_CHOICE_COUNT && NoDuplicates(info.modifierChoices)
      ensures forall i :: 0 <= i < |info.modifierChoices| ==>
        info.modifierChoices[i] !in activeModifiers && info.modifierChoices[i].Tabled()
      ensures forall i :: 0 <= i < |info.modifierChoices| ==> Sampled(info.modifierChoices[i], rolls)
      ensures |info.modifierChoices| < MODIFIER_CHOICE_COUNT ==>
        forall k :: 0 <= k < MAX_ATTEMPTS && Sample(rolls(k)) !in activeModifiers ==> Sample(rolls(k)) in info.modifierChoices
      ensures sheepCount == old(sheepCount) && blueSheepCount == old(blueSheepCount)
      ensures redSheepCount == old(redSheepCount) && pointTarget == old(pointTarget)
      ensures money == old(money) && charms == old(charms) && maxCharms == old(maxCharms)
      ensures playerBarkRadius == old(playerBarkRadius)
    {
      countdown := countdown.Reset();
      points := 0;
      var removed := None;
      if |activeModifiers| > 2 {
        removed := Some(activeModifiers[0]);
        activeModifiers := activeModifiers[1..];
      }
      var choices := PickRandomModifiers(MODIFIER_CHOICE_COUNT, rolls);
      info := NewRoundInfo(removed, choices);
    }

    /**
     * `pick_random_modifiers`: up to 100 rolls, keeping each sampled modifier
     * that is neither active nor already chosen, until `count` are chosen.
     * `rolls(k)` is the roll in `0..4` made on attempt `k`.
     */
    method PickRandomModifiers(count: nat, rolls: nat -> nat) returns (choices: seq<Modifier>)
      ensures |choices| <= count
      ensures NoDuplicates(choices)
      ensures forall i :: 0 <= i < |choices| ==> choices[i] !in activeModifiers && choices[i].Tabled()
      ensures forall i :: 0 <= i < |choices| ==> exists k :: 0 <= k < MAX_ATTEMPTS && choices[i] == Sample(rolls(k))
      ensures |choices| < count ==>
        forall k :: 0 <= k < MAX_ATTEMPTS && Sample(rolls(k)) !in activeModifiers ==> Sample(rolls(k)) in choices
    {
      choices := [];
      var attempts := 0;
      while |choices| < count && attempts < MAX_ATTEMPTS
        invariant attempts <= MAX_ATTEMPTS
        invariant |choices| <= count
        invariant NoDuplicates(choices)
        invariant forall i :: 0 <= i < |choices| ==> choices[i] !in activeModifiers && choices[i].Tabled()
        invariant forall i :: 0 <= i < |choices| ==> exists k :: 0 <= k < attempts && choices[i] == Sample(rolls(k))
        invariant forall k :: 0 <= k < attempts && Sample(rolls(k)) !in activeModifiers ==> Sample(rolls(k)) in choices
        decreases MAX_ATTEMPTS - attempts
      {
        var modifier := Sample(rolls(attempts));
        if Contains(activeModifiers, modifier) || Contains(choices, modifier) {
          attempts := attempts + 1;
          continue;
        }
        choices := choices + [modifier];
        attempts := attempts + 1;
      }
      assert |choices| < count ==> attempts == MAX_ATTEMPTS;
    }
  }

  /** `m` is the modifier sampled on one of the first `MAX_ATTEMPTS` rolls. */
  predicate Sampled(m: Modifier, rolls: nat -> nat)
  {
    exists k :: 0 <= k < MAX_ATTEMPTS && m == Sample(rolls(k))
  }

  /** At most three active modifiers stay at most three across a new round and one choice. */
  lemma EvictionBoundsActive(active: seq<Modifier>, chosen: Modifier)
    requires |active| <= 3
    ensures |AfterEviction(active)| <= 2
    ensures |AfterEviction(active) + [chosen]| <= 3
  {
  }

  /** Distinct active modifiers stay distinct when the round appends a modifier that is not active. */
  lemma EvictionKeepsDistinct(active: seq<Modifier>, chosen: Modifier)
    requires NoDuplicates(active)
    requires chosen !in AfterEviction(active)
    ensures NoDuplicates(AfterEviction(active) + [chosen])
  {
    var kept := AfterEviction(active);
    forall i, j | 0 <= i < j < |kept| + 1
      ensures (kept + [chosen])[i] != (kept + [chosen])[j]
    {
      if j == |kept| {
        assert (kept + [chosen])[i] == kept[i];
      } else if |active| > 2 {
        assert kept[i] == active[i + 1] && kept[j] == active[j + 1];
      }
    }
  }
}
